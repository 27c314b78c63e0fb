/**
 * The hello_world draft of the build tool (examples/hello_world/build.c).
 *
 * What sets it apart from the root draft: paths are split into PATH_MAX
 * buffers, a path that cannot be stat'ed has an unknown modification time
 * (STAT_FILE ignores the failure), check_deps skips the first token of
 * every ledger line, `change` accumulates over the units, a failed link
 * releases the lock and returns 2, the pre_run/post_run hooks only run
 * with "--", and the record is read and written through the address of
 * the pointer (so what a read yields is an input of the model).
 */
module HelloBuild {
  import opened CLib
  import opened BuildModel

  /** PATH_MAX of <linux/limits.h>: the size of every path buffer. */
  const PathMax := 4096

  /**
   * The record file build_dir/build_exe.lock: missing, created empty by
   * get_build, or written by set_build (with bytes that are not the record).
   */
  datatype Record = NoRecord | EmptyRecord | Written

  /**
   * What a run depends on besides the file system: the status pclose
   * returns for each command, the time, the modification time STAT_FILE
   * reports for a path that does not exist, and the context a successful
   * read of the record file leaves in build_ctx.
   */
  datatype World = World(exitOf: string -> int, now: int, unknownMtime: string -> int, readBack: BuildContext)

  // ---------------------------------------------------------------------
  // Paths

  /** split_path: dirname and basename, each cut to fit a PATH_MAX buffer. */
  function SplitPath(path: string): (p: PathParts)
    ensures p.dir <= Dirname(path) && |p.dir| == (if |Dirname(path)| < PathMax then |Dirname(path)| else PathMax - 1)
    ensures p.base <= Basename(path) && |p.base| == (if |Basename(path)| < PathMax then |Basename(path)| else PathMax - 1)
    ensures |Dirname(path)| < PathMax ==> p.dir == Dirname(path)
    ensures |Basename(path)| < PathMax ==> p.base == Basename(path)
  {
    PathParts(Truncate(Dirname(path), PathMax - 1), Truncate(Basename(path), PathMax - 1))
  }

  /** A path "d/b" with short parts splits back into d and b. */
  lemma {:induction false} SplitPathOfJoin(d: string, b: string)
    requires |b| > 0 && '/' !in b && |b| < PathMax
    requires |d| > 0 && d[|d| - 1] != '/' && |d| < PathMax
    ensures SplitPath(d + "/" + b) == PathParts(d, b)
  {
    SplitDirBase(d, b);
  }

  /** The parts of every configured source, in order. */
  function Parts(srcs: seq<string>): (ps: seq<PathParts>)
    ensures |ps| == |srcs|
    ensures forall i :: 0 <= i < |srcs| ==> ps[i] == SplitPath(srcs[i])
  {
    seq(|srcs|, i requires 0 <= i < |srcs| => SplitPath(srcs[i]))
  }

  /** A unit d/n.e has its object at build_dir/d/n.o and its ledger at build_dir/d/n.d. */
  lemma {:induction false} PartsFiles(buildDir: string, srcs: seq<string>, i: nat, d: string, n: string, e: string)
    requires i < |srcs| && srcs[i] == d + "/" + n + "." + e
    requires |d| > 0 && d[|d| - 1] != '/' && |n| > 0 && '.' !in n && '/' !in n && '/' !in e && |d| < PathMax && |n| + 1 + |e| < PathMax
    ensures Parts(srcs)[i] == PathParts(d, n + "." + e)
    ensures ObjectFile(buildDir, Parts(srcs)[i]) == buildDir + "/" + d + "/" + n + ".o"
    ensures LedgerFile(buildDir, Parts(srcs)[i]) == buildDir + "/" + d + "/" + n + ".d"
  {
    var b := n + "." + e;
    assert '/' !in b by {
      forall j | 0 <= j < |b| ensures b[j] != '/' { if j < |n| { assert b[j] == n[j]; } else if j > |n| { assert b[j] == e[j - |n| - 1]; } }
    }
    assert srcs[i] == d + "/" + b;
    SplitDirBase(d, b);
    StemOfDotted(n, e);
    FilesOfStem(buildDir, PathParts(d, b), n);
  }

  /** A unit n.e without a directory has its object at build_dir/./n.o and its ledger at build_dir/./n.d. */
  lemma {:induction false} PlainPartsFiles(buildDir: string, srcs: seq<string>, i: nat, n: string, e: string)
    requires i < |srcs| && srcs[i] == n + "." + e
    requires |n| > 0 && '.' !in n && '/' !in n && '/' !in e && |n| + 1 + |e| < PathMax
    ensures Parts(srcs)[i] == PathParts(".", n + "." + e)
    ensures ObjectFile(buildDir, Parts(srcs)[i]) == buildDir + "/./" + n + ".o"
    ensures LedgerFile(buildDir, Parts(srcs)[i]) == buildDir + "/./" + n + ".d"
  {
    var b := n + "." + e;
    assert '/' !in b by {
      forall j | 0 <= j < |b| ensures b[j] != '/' { if j < |n| { assert b[j] == n[j]; } else if j > |n| { assert b[j] == e[j - |n| - 1]; } }
    }
    assert srcs[i] == b;
    SplitPlainName(b);
    assert SplitPath(srcs[i]) == PathParts(".", b);
    StemOfDotted(n, e);
    FilesOfStem(buildDir, PathParts(".", b), n);
    DotDirText(buildDir);
  }

  /** The mkdir calls rec_mkdir(dir) makes: snprintf copies dir's C string into a PATH_MAX buffer, which is walked. */
  function MkdirCalls(dir: string): seq<string> {
    MkdirSequence(Truncate(CStr(dir), PathMax - 1))
  }

  /** rec_mkdir: copy dir into a PATH_MAX buffer, then create every ancestor and dir. */
  method RecMkdir(dir: string) returns (calls: seq<string>)
    ensures calls == MkdirCalls(dir)
  {
    var tmp := new char[PathMax](_ => '\0');
    var src := Truncate(CStr(dir), PathMax - 1);
    forall i | 0 <= i < |src| {
      tmp[i] := src[i];
    }
    assert tmp[..|src|] == src;
    CStrAt(tmp[..], |src|);
    calls := MkdirWalk(tmp);
  }

  /** For a short C string, rec_mkdir's calls are the ones MkdirSequenceMeaning describes. */
  lemma {:induction false} MkdirCallsOfShortPath(dir: string)
    requires NoNul(dir) && |dir| < PathMax
    ensures MkdirCalls(dir) == MkdirSequence(dir)
  {
    CStrOfNoNul(dir);
  }

  // ---------------------------------------------------------------------
  // The record file

  /** set_build: fopen(lockfile, "w") succeeds only while build_dir exists. */
  function SavedRecord(s: Settings, fs: Fs, rec: Record): Record {
    if DirExists(fs, s.buildDir) then Written else rec
  }

  /** What get_build leaves behind: the context and the record file, or an abort. */
  datatype Loaded = Loaded(ctx: BuildContext, rec: Record) | LoadAborted

  /**
   * get_build: a missing record is created empty (when build_dir exists) and
   * the context stays zero; reading an empty record fails its assert; a
   * written record yields the context the world says the read leaves.
   */
  function Load(s: Settings, fs: Fs, rec: Record, w: World): (l: Loaded)
    ensures l.LoadAborted? <==> rec.EmptyRecord?
    ensures rec.NoRecord? ==> l == Loaded(ZeroContext, if DirExists(fs, s.buildDir) then EmptyRecord else NoRecord)
  {
    match rec
    case NoRecord => Loaded(ZeroContext, if DirExists(fs, s.buildDir) then EmptyRecord else NoRecord)
    case EmptyRecord => LoadAborted
    case Written => Loaded(w.readBack, Written)
  }

  // ---------------------------------------------------------------------
  // Staleness

  /** STAT_FILE(path).st_mtim.tv_sec: the recorded time, or garbage for a missing path. */
  function StatTime(fs: Fs, w: World, path: string): int {
    if path in fs.mtime then fs.mtime[path] else w.unknownMtime(path)
  }

  /** Some token after the first on this ledger line, newline stripped, is not older than lastBuild. */
  predicate NewerDepOnLine(fs: Fs, w: World, line: string, lastBuild: int) {
    exists j :: 1 <= j < |LineTokens(line)| && StatTime(fs, w, StripNewline(LineTokens(line)[j])) >= lastBuild
  }

  predicate NewerDep(fs: Fs, w: World, lines: seq<string>, lastBuild: int) {
    exists i :: 0 <= i < |lines| && NewerDepOnLine(fs, w, lines[i], lastBuild)
  }

  /** The ledger build_dir/dir/stem.d of a source. */
  function Ledger(s: Settings, path: string): string {
    LedgerFile(s.buildDir, SplitPath(path))
  }

  /**
   * check_deps' answer: the source is not older than lastBuild, or its
   * ledger cannot be opened, or a dependency the ledger lists (after the
   * first token of a line) is not older than lastBuild.
   */
  predicate Stale(s: Settings, fs: Fs, w: World, path: string, lastBuild: int) {
    StatTime(fs, w, path) >= lastBuild
    || Ledger(s, path) !in fs.ledgers
    || NewerDep(fs, w, fs.ledgers[Ledger(s, path)], lastBuild)
  }

  /** check_deps: the two short-circuits, then the loops over ledger lines and their tokens. */
  method CheckDeps(s: Settings, fs: Fs, w: World, path: string, ctx: BuildContext) returns (changed: bool)
    ensures changed == Stale(s, fs, w, path, ctx.lastBuild)
  {
    if StatTime(fs, w, path) >= ctx.lastBuild {
      return true;
    }
    var p := SplitPath(path);
    var ledger := LedgerFile(s.buildDir, p);
    if ledger !in fs.ledgers {
      return true;
    }
    changed := ScanLedger(fs, w, fs.ledgers[ledger], ctx.lastBuild);
  }

  /** check_deps' outer loop: depChanged is set once some line has a newer dependency. */
  method ScanLedger(fs: Fs, w: World, lines: seq<string>, lastBuild: int) returns (depChanged: bool)
    ensures depChanged == NewerDep(fs, w, lines, lastBuild)
  {
    depChanged := false;
    var i := 0;
    while i < |lines|
      invariant 0 <= i <= |lines|
      invariant depChanged <==> exists i' :: 0 <= i' < i && NewerDepOnLine(fs, w, lines[i'], lastBuild)
    {
      var newer := ScanLine(fs, w, lines[i], lastBuild);
      depChanged := depChanged || newer;
      i := i + 1;
    }
  }

  /** check_deps' inner loop over the tokens of one line, the first token skipped. */
  method ScanLine(fs: Fs, w: World, line: string, lastBuild: int) returns (newer: bool)
    ensures newer == NewerDepOnLine(fs, w, line, lastBuild)
  {
    var toks := LineTokens(line);
    newer := false;
    var first := true;
    var k := 0;
    while k < |toks|
      invariant 0 <= k <= |toks|
      invariant first <==> k == 0
      invariant newer <==> exists j :: 1 <= j < k && StatTime(fs, w, StripNewline(toks[j])) >= lastBuild
    {
      if first {
        first := false;
        k := k + 1;
        continue;
      }
      var tok := StripNewline(toks[k]);
      if StatTime(fs, w, tok) >= lastBuild {
        newer := true;
      }
      k := k + 1;
    }
  }

  /** A source not older than the last build is stale whatever its ledger says. */
  lemma {:induction false} SourceNewerIsStale(s: Settings, fs: Fs, w: World, path: string, lastBuild: int)
    requires StatTime(fs, w, path) >= lastBuild
    ensures Stale(s, fs, w, path, lastBuild)
  {
  }

  /** A source with no ledger at build_dir/dir/stem.d is stale. */
  lemma {:induction false} MissingLedgerIsStale(s: Settings, fs: Fs, w: World, d: string, b: string, lastBuild: int)
    requires |b| > 0 && '/' !in b && |b| < PathMax && b[0] != '.'
    requires |d| > 0 && d[|d| - 1] != '/' && |d| < PathMax
    requires s.buildDir + "/" + d + "/" + b[..Span(b, '.')] + ".d" !in fs.ledgers
    ensures Stale(s, fs, w, d + "/" + b, lastBuild)
  {
    SplitPathOfJoin(d, b);
    StemOfName(b);
  }

  /**
   * Only the mtime map and the ledgers matter to staleness: creating
   * directories never changes a verdict.
   */
  lemma {:induction false} StaleIgnoresDirs(s: Settings, fs: Fs, fs': Fs, w: World, path: string, lastBuild: int)
    requires fs'.mtime == fs.mtime && fs'.ledgers == fs.ledgers
    ensures Stale(s, fs', w, path, lastBuild) == Stale(s, fs, w, path, lastBuild)
  {
    assert forall p :: StatTime(fs', w, p) == StatTime(fs, w, p);
    assert forall line :: NewerDepOnLine(fs', w, line, lastBuild) == NewerDepOnLine(fs, w, line, lastBuild);
  }

  /** A word fit to be a token of its own: nonempty, without space, NUL or newline. */
  predicate Word(x: string) {
    |x| > 0 && ' ' !in x && '\n' !in x && NoNul(x)
  }

  lemma {:induction false} WordsLine(a: string, b: string, c: string)
    requires Word(a) && Word(b) && |c| > 0 && ' ' !in c && NoNul(c)
    ensures LineTokens(a + " " + b + " " + c) == [a, b, c]
  {
    var l := a + " " + b + " " + c;
    assert NoNul(l) by {
      forall k | 0 <= k < |l| ensures l[k] != '\0' {
        if k < |a| { assert l[k] == a[k]; }
        else if k == |a| || k == |a| + 1 + |b| { }
        else if k < |a| + 1 + |b| { assert l[k] == b[k - |a| - 1]; }
        else { assert l[k] == c[k - |a| - |b| - 2]; }
      }
    }
    CStrOfNoNul(l);
    assert l == a + [' '] + (b + [' '] + c);
    TokensOfSplit(a, ' ', b + [' '] + c);
    TokensOfSplit(b, ' ', c);
    TokensOfPlain(c, ' ');
  }

  lemma {:induction false} IndentedLine(a: string)
    requires |a| > 0 && ' ' !in a && NoNul(a)
    ensures LineTokens(" " + a) == [a]
  {
    var l := " " + a;
    assert NoNul(l) by {
      forall k | 0 <= k < |l| ensures l[k] != '\0' {
        if k > 0 { assert l[k] == a[k - 1]; }
      }
    }
    CStrOfNoNul(l);
    assert l[0] == ' ' && l[1..] == a;
    TokensOfPlain(a, ' ');
  }

  /**
   * The first token of every line is skipped, continuation lines included:
   * in the ledger "target: dep \" / " hdr" (the form clang -MD writes when
   * it wraps a line) the header hdr opens the second line and is never
   * looked at, however new it is.
   */
  lemma {:induction false} ContinuationHeaderIgnored(fs: Fs, w: World, lastBuild: int, target: string, dep: string, hdr: string)
    requires Word(target) && Word(dep) && Word(hdr)
    requires StatTime(fs, w, dep) < lastBuild && StatTime(fs, w, "\\") < lastBuild
    ensures !NewerDep(fs, w, [target + " " + dep + " " + "\\\n", " " + (hdr + "\n")], lastBuild)
  {
    var l1, l2 := target + " " + dep + " " + "\\\n", " " + (hdr + "\n");
    WordsLine(target, dep, "\\\n");
    assert NoNul(hdr + "\n") by {
      forall k | 0 <= k < |hdr| + 1 ensures (hdr + "\n")[k] != '\0' {
        if k < |hdr| { assert (hdr + "\n")[k] == hdr[k]; }
      }
    }
    IndentedLine(hdr + "\n");
    assert StripNewline(dep) == dep;
    assert StripNewline("\\\n") == "\\";
    assert !NewerDepOnLine(fs, w, l1, lastBuild) by {
      forall j | 1 <= j < |LineTokens(l1)| ensures StatTime(fs, w, StripNewline(LineTokens(l1)[j])) < lastBuild {
      }
    }
    assert !NewerDepOnLine(fs, w, l2, lastBuild);
    var lines := [l1, l2];
    forall i | 0 <= i < |lines| ensures !NewerDepOnLine(fs, w, lines[i], lastBuild) {
    }
  }

  /** The same header, second on its line, makes the unit stale when it is new. */
  lemma {:induction false} HeaderAfterTargetCounts(fs: Fs, w: World, lastBuild: int, target: string, dep: string, hdr: string)
    requires Word(target) && Word(dep) && Word(hdr)
    requires StatTime(fs, w, hdr) >= lastBuild
    ensures NewerDep(fs, w, [target + " " + hdr + " " + (dep + "\n")], lastBuild)
  {
    var l := target + " " + hdr + " " + (dep + "\n");
    assert NoNul(dep + "\n") by {
      forall k | 0 <= k < |dep| + 1 ensures (dep + "\n")[k] != '\0' {
        if k < |dep| { assert (dep + "\n")[k] == dep[k]; }
      }
    }
    assert ' ' !in dep + "\n" by {
      forall k | 0 <= k < |dep| + 1 ensures (dep + "\n")[k] != ' ' {
        if k < |dep| { assert (dep + "\n")[k] == dep[k]; }
      }
    }
    WordsLine(target, hdr, dep + "\n");
    assert StripNewline(hdr) == hdr;
    assert NewerDepOnLine(fs, w, l, lastBuild) by {
      assert LineTokens(l)[1] == hdr;
    }
    assert [l][0] == l;
  }

  // ---------------------------------------------------------------------
  // Compiling and linking

  /** compile_file's effect: check_deps, then for a stale unit rec_mkdir of its output directory and the compile. */
  function Compile(s: Settings, fs: Fs, w: World, path: string, lastBuild: int): (u: UnitRun)
    ensures u.changed == Stale(s, fs, w, path, lastBuild)
    ensures !u.changed ==> u == UnitRun(false, 0, fs, [])
    ensures u.fs.mtime == fs.mtime && u.fs.ledgers == fs.ledgers
  {
    if !Stale(s, fs, w, path, lastBuild) then UnitRun(false, 0, fs, [])
    else
      var p := SplitPath(path);
      var od := OutputDir(s.buildDir, p);
      var calls := if DirExists(fs, od) then [] else MkdirCalls(od);
      var cmd := CompileCommand(s, path, p);
      UnitRun(true, w.exitOf(cmd), AddDirs(fs, calls), Mkdirs(calls) + [Exec(cmd)])
  }

  /** compile_file. */
  method CompileFile(s: Settings, fs: Fs, w: World, path: string, ctx: BuildContext) returns (u: UnitRun)
    ensures u == Compile(s, fs, w, path, ctx.lastBuild)
  {
    var p := SplitPath(path);
    var changed := CheckDeps(s, fs, w, path, ctx);
    if !changed {
      return UnitRun(false, 0, fs, []);
    }
    var od := OutputDir(s.buildDir, p);
    var calls := [];
    if !DirExists(fs, od) {
      calls := RecMkdir(od);
    }
    var cmd := s.cc + " -c " + path + " -o " + ObjectFile(s.buildDir, p) + " ";
    cmd := AppendFlags(cmd, s.cFlags);
    u := UnitRun(true, w.exitOf(cmd), AddDirs(fs, calls), Mkdirs(calls) + [Exec(cmd)]);
  }

  /** A stale unit's compile command runs last in its events, and its status is the unit's. */
  lemma {:induction false} StaleUnitCompiles(s: Settings, fs: Fs, w: World, path: string, lastBuild: int)
    requires Stale(s, fs, w, path, lastBuild)
    ensures var u := Compile(s, fs, w, path, lastBuild);
            var cmd := CompileCommand(s, path, SplitPath(path));
            |u.events| > 0 && u.events[|u.events| - 1] == Exec(cmd) && u.ret == w.exitOf(cmd)
            && forall k :: 0 <= k < |u.events| - 1 ==> u.events[k].Mkdir?
  {
    var od := OutputDir(s.buildDir, SplitPath(path));
    MkdirsAt(if DirExists(fs, od) then [] else MkdirCalls(od));
  }

  /** compile_exe: the link command, and whether it exited with status 0. */
  method CompileExe(s: Settings, w: World) returns (ok: bool, cmd: string)
    ensures cmd == LinkCommand(s, Parts(s.cSrc))
    ensures ok <==> w.exitOf(cmd) == 0
  {
    cmd := s.cc + " -o " + s.buildDir + "/" + s.cExe + " ";
    cmd := AppendFlags(cmd, s.cFlags);
    ghost var head := cmd;
    assert head == LinkHead(s);
    ghost var ps := Parts(s.cSrc);
    for i := 0 to |s.cSrc|
      invariant cmd == head + ObjectList(s.buildDir, ps[..i])
    {
      var p := SplitPath(s.cSrc[i]);
      assert p == ps[i];
      ObjectListStep(head, s.buildDir, ps, i);
      cmd := cmd + ObjectFile(s.buildDir, p) + " ";
    }
    assert ps[..|s.cSrc|] == ps;
    ok := w.exitOf(cmd) == 0;
  }

  /**
   * main's compile loop over the first units of srcs: stale units are
   * compiled in order, `change` accumulates, and the first failed compile
   * of a stale unit stops the loop.
   */
  function CompileAll(s: Settings, w: World, lastBuild: int, srcs: seq<string>, fs: Fs): (p: Pass)
    ensures p.status != PassAborted
    ensures p.fs.mtime == fs.mtime && p.fs.ledgers == fs.ledgers
    decreases |srcs|
  {
    if srcs == [] then Pass(false, fs, [], Running)
    else CompileStep(s, w, lastBuild, CompileAll(s, w, lastBuild, srcs[..|srcs| - 1], fs), srcs[|srcs| - 1])
  }

  /** One pass of the compile loop: a stopped loop stays as it is; otherwise the next unit is compiled. */
  function CompileStep(s: Settings, w: World, lastBuild: int, p: Pass, path: string): (q: Pass)
    ensures p.status != PassAborted ==> q.status != PassAborted
    ensures q.fs.mtime == p.fs.mtime && q.fs.ledgers == p.fs.ledgers
  {
    if p.status != Running then p
    else
      var u := Compile(s, p.fs, w, path, lastBuild);
      if u.changed && u.ret != 0 then Pass(p.change, u.fs, p.trace + u.events, Failed)
      else Pass(p.change || u.changed, u.fs, p.trace + u.events, Running)
  }

  /** The loop over the first i + 1 units is one more pass after the loop over the first i. */
  lemma {:induction false} CompileAllSnoc(s: Settings, w: World, lastBuild: int, srcs: seq<string>, fs: Fs, i: nat)
    requires i < |srcs|
    ensures CompileAll(s, w, lastBuild, srcs[..i + 1], fs) == CompileStep(s, w, lastBuild, CompileAll(s, w, lastBuild, srcs[..i], fs), srcs[i])
  {
    assert srcs[..i + 1][..i] == srcs[..i];
  }

  /** Once the loop has stopped, the later units change nothing: none of them is compiled. */
  lemma {:induction false} CompileAllStops(s: Settings, w: World, lastBuild: int, srcs: seq<string>, fs: Fs, k: nat, m: nat)
    requires k <= m <= |srcs|
    requires CompileAll(s, w, lastBuild, srcs[..k], fs).status != Running
    ensures CompileAll(s, w, lastBuild, srcs[..m], fs) == CompileAll(s, w, lastBuild, srcs[..k], fs)
  {
    var run := (j: nat) => CompileAll(s, w, lastBuild, if j <= |srcs| then srcs[..j] else srcs, fs);
    forall j | k < j <= m && run(j - 1).status != Running ensures run(j) == run(j - 1) {
      assert run(j - 1) == CompileAll(s, w, lastBuild, srcs[..j - 1], fs);
      SnocStopped(s, w, lastBuild, srcs, fs, j);
    }
    Stays(run, (p: Pass) => p.status != Running, k, m);
  }

  /** A loop that has stopped after the first k units ends there. */
  lemma {:induction false} CompileAllStopped(s: Settings, w: World, lastBuild: int, srcs: seq<string>, fs: Fs, k: nat)
    requires k <= |srcs| && CompileAll(s, w, lastBuild, srcs[..k], fs).status != Running
    ensures CompileAll(s, w, lastBuild, srcs, fs) == CompileAll(s, w, lastBuild, srcs[..k], fs)
  {
    CompileAllStops(s, w, lastBuild, srcs, fs, k, |srcs|);
    assert srcs[..|srcs|] == srcs;
  }

  /** A loop that had stopped after m - 1 units is left as it is by unit m - 1. */
  lemma {:induction false} SnocStopped(s: Settings, w: World, lastBuild: int, srcs: seq<string>, fs: Fs, m: nat)
    requires 0 < m <= |srcs|
    requires CompileAll(s, w, lastBuild, srcs[..m - 1], fs).status != Running
    ensures CompileAll(s, w, lastBuild, srcs[..m], fs) == CompileAll(s, w, lastBuild, srcs[..m - 1], fs)
  {
    CompileAllSnoc(s, w, lastBuild, srcs, fs, m - 1);
  }

  /** A pass that leaves the loop running found the loop running, added the unit's staleness to `change`, and any compile it ran exited with 0. */
  lemma {:induction false} StepRunning(s: Settings, w: World, lastBuild: int, p: Pass, path: string, fs: Fs)
    requires p.fs.mtime == fs.mtime && p.fs.ledgers == fs.ledgers
    requires CompileStep(s, w, lastBuild, p, path).status == Running
    ensures p.status == Running
    ensures CompileStep(s, w, lastBuild, p, path).change == (p.change || Stale(s, fs, w, path, lastBuild))
    ensures Stale(s, fs, w, path, lastBuild) ==> w.exitOf(CompileCommand(s, path, SplitPath(path))) == 0
  {
    StaleIgnoresDirs(s, fs, p.fs, w, path, lastBuild);
    if Stale(s, fs, w, path, lastBuild) {
      StaleUnitCompiles(s, p.fs, w, path, lastBuild);
    }
  }

  /** A pass that stops a running loop compiled a stale unit, and the compile failed. */
  lemma {:induction false} StepFailed(s: Settings, w: World, lastBuild: int, p: Pass, path: string, fs: Fs)
    requires p.fs.mtime == fs.mtime && p.fs.ledgers == fs.ledgers
    requires p.status == Running && CompileStep(s, w, lastBuild, p, path).status == Failed
    ensures Stale(s, fs, w, path, lastBuild) && w.exitOf(CompileCommand(s, path, SplitPath(path))) != 0
  {
    StaleIgnoresDirs(s, fs, p.fs, w, path, lastBuild);
    StaleUnitCompiles(s, p.fs, w, path, lastBuild);
  }

  /** A pass adds nothing but mkdir calls and compiles to the trace. */
  lemma {:induction false} StepSavesNothing(s: Settings, w: World, lastBuild: int, p: Pass, path: string)
    requires forall e :: e in p.trace ==> e.Mkdir? || e.Exec?
    ensures forall e :: e in CompileStep(s, w, lastBuild, p, path).trace ==> e.Mkdir? || e.Exec?
  {
    if p.status == Running {
      UnitSavesNothing(s, p.fs, w, path, lastBuild);
    }
  }

  /** One unit's compile_file adds nothing but mkdir calls and its compile. */
  lemma {:induction false} UnitSavesNothing(s: Settings, fs: Fs, w: World, path: string, lastBuild: int)
    ensures forall e :: e in Compile(s, fs, w, path, lastBuild).events ==> e.Mkdir? || e.Exec?
  {
    if Stale(s, fs, w, path, lastBuild) {
      StaleUnitCompiles(s, fs, w, path, lastBuild);
    }
  }

  /** In a loop that ran to the end, `change` is SomeOf(f, srcs) for f the staleness of a unit. */
  lemma {:induction false} CompileAllSomeStale(s: Settings, w: World, lastBuild: int, srcs: seq<string>, fs: Fs, f: string -> bool)
    requires forall x :: f(x) == Stale(s, fs, w, x, lastBuild)
    requires CompileAll(s, w, lastBuild, srcs, fs).status == Running
    ensures CompileAll(s, w, lastBuild, srcs, fs).change == SomeOf(f, srcs)
    decreases |srcs|
  {
    if srcs != [] {
      var n := |srcs| - 1;
      var p := CompileAll(s, w, lastBuild, srcs[..n], fs);
      StepRunning(s, w, lastBuild, p, srcs[n], fs);
      CompileAllSomeStale(s, w, lastBuild, srcs[..n], fs, f);
    }
  }

  /** In a loop that ran to the end, `change` says whether any unit was stale. */
  lemma {:induction false} CompileAllChange(s: Settings, w: World, lastBuild: int, srcs: seq<string>, fs: Fs)
    requires CompileAll(s, w, lastBuild, srcs, fs).status == Running
    ensures CompileAll(s, w, lastBuild, srcs, fs).change <==> exists i :: 0 <= i < |srcs| && Stale(s, fs, w, srcs[i], lastBuild)
  {
    var f := x => Stale(s, fs, w, x, lastBuild);
    CompileAllSomeStale(s, w, lastBuild, srcs, fs, f);
    SomeOfMeaning(f, srcs);
  }

  /** In a loop that ran to the end, AllOf(f, srcs) for f "a stale unit's compile exits with 0". */
  lemma {:induction false} CompileAllAllSucceed(s: Settings, w: World, lastBuild: int, srcs: seq<string>, fs: Fs, f: string -> bool)
    requires forall x :: f(x) == (Stale(s, fs, w, x, lastBuild) ==> w.exitOf(CompileCommand(s, x, SplitPath(x))) == 0)
    requires CompileAll(s, w, lastBuild, srcs, fs).status == Running
    ensures AllOf(f, srcs)
    decreases |srcs|
  {
    if srcs != [] {
      var n := |srcs| - 1;
      var p := CompileAll(s, w, lastBuild, srcs[..n], fs);
      StepRunning(s, w, lastBuild, p, srcs[n], fs);
      CompileAllAllSucceed(s, w, lastBuild, srcs[..n], fs, f);
    }
  }

  /** A loop that ran to the end compiled every stale unit with status 0. */
  lemma {:induction false} CompileAllSucceeded(s: Settings, w: World, lastBuild: int, srcs: seq<string>, fs: Fs, i: nat)
    requires CompileAll(s, w, lastBuild, srcs, fs).status == Running
    requires i < |srcs| && Stale(s, fs, w, srcs[i], lastBuild)
    ensures w.exitOf(CompileCommand(s, srcs[i], SplitPath(srcs[i]))) == 0
  {
    var f := x => Stale(s, fs, w, x, lastBuild) ==> w.exitOf(CompileCommand(s, x, SplitPath(x))) == 0;
    CompileAllAllSucceed(s, w, lastBuild, srcs, fs, f);
    AllOfMeaning(f, srcs);
    assert f(srcs[i]);
  }

  /** The compile loop makes directories and runs compiles, and never saves the record. */
  lemma {:induction false} CompileAllSavesNothing(s: Settings, w: World, lastBuild: int, srcs: seq<string>, fs: Fs)
    ensures forall e :: e in CompileAll(s, w, lastBuild, srcs, fs).trace ==> e.Mkdir? || e.Exec?
    decreases |srcs|
  {
    if srcs != [] {
      var n := |srcs| - 1;
      CompileAllSavesNothing(s, w, lastBuild, srcs[..n], fs);
      StepSavesNothing(s, w, lastBuild, CompileAll(s, w, lastBuild, srcs[..n], fs), srcs[n]);
    }
  }

  /** The unit whose failed compile stopped the loop, the loop having run through the units before it. */
  lemma {:induction false} FailedUnit(s: Settings, w: World, lastBuild: int, srcs: seq<string>, fs: Fs) returns (i: nat)
    requires CompileAll(s, w, lastBuild, srcs, fs).status == Failed
    ensures i < |srcs|
    ensures CompileAll(s, w, lastBuild, srcs[..i], fs).status == Running
    ensures Stale(s, fs, w, srcs[i], lastBuild) && w.exitOf(CompileCommand(s, srcs[i], SplitPath(srcs[i]))) != 0
    ensures CompileAll(s, w, lastBuild, srcs, fs) == CompileAll(s, w, lastBuild, srcs[..i + 1], fs)
  {
    i := FirstStop(s, w, lastBuild, srcs, fs);
    CompileAllStopped(s, w, lastBuild, srcs, fs, i + 1);
    FailedAtEnd(s, w, lastBuild, srcs, fs, i);
  }

  /** A loop that stopped has a first unit after which it is no longer running. */
  lemma FirstStop(s: Settings, w: World, lastBuild: int, srcs: seq<string>, fs: Fs) returns (i: nat)
    requires CompileAll(s, w, lastBuild, srcs, fs).status != Running
    ensures i < |srcs|
    ensures CompileAll(s, w, lastBuild, srcs[..i], fs).status == Running
    ensures CompileAll(s, w, lastBuild, srcs[..i + 1], fs).status != Running
  {
    var going := (j: nat) => j <= |srcs| && CompileAll(s, w, lastBuild, srcs[..j], fs).status == Running;
    assert going(0) by { assert srcs[..0] == []; }
    assert !going(|srcs|) by { assert srcs[..|srcs|] == srcs; }
    i := FirstSwitch(going, |srcs|);
  }

  /** One step of the compile loop extends the run by a unit; once it stops, the run over all units ends there. */
  lemma LoopStep(s: Settings, w: World, lastBuild: int, srcs: seq<string>, fs: Fs, i: nat, p: Pass, q: Pass)
    requires i < |srcs| && p == CompileAll(s, w, lastBuild, srcs[..i], fs)
    requires q == CompileStep(s, w, lastBuild, p, srcs[i])
    ensures q == CompileAll(s, w, lastBuild, srcs[..i + 1], fs)
    ensures q.status != Running ==> CompileAll(s, w, lastBuild, srcs, fs) == q
  {
    CompileAllSnoc(s, w, lastBuild, srcs, fs, i);
    if q.status != Running {
      CompileAllStopped(s, w, lastBuild, srcs, fs, i + 1);
    }
  }

  /** A loop over the first i + 1 units that failed after running through the first i failed on unit i. */
  lemma {:induction false} FailedAtEnd(s: Settings, w: World, lastBuild: int, srcs: seq<string>, fs: Fs, i: nat)
    requires i < |srcs| && CompileAll(s, w, lastBuild, srcs[..i + 1], fs).status == Failed
    requires CompileAll(s, w, lastBuild, srcs[..i], fs).status == Running
    ensures Stale(s, fs, w, srcs[i], lastBuild) && w.exitOf(CompileCommand(s, srcs[i], SplitPath(srcs[i]))) != 0
  {
    CompileAllSnoc(s, w, lastBuild, srcs, fs, i);
    StepFailed(s, w, lastBuild, CompileAll(s, w, lastBuild, srcs[..i], fs), srcs[i], fs);
  }

  // ---------------------------------------------------------------------
  // main

  /** The command that rebuilds the tool itself, with the mode's flags. */
  function SelfBuildCommand(s: Settings, mode: Mode): string {
    s.buildCc + " " + s.buildC + " -o " + s.buildExe
    + (match mode
       case ModeDev => " -DDEBUG -g -Wall"
       case ModeRel => " -DRELEASE -O3 -Wall"
       case ModeNone => " -Wall")
  }

  /** `if (last_mode != mode || clean)`: save the record unchanged, then remove build_dir if it is there. */
  function Reset(s: Settings, st: St<Record>): St<Record> {
    var t := st.trace + [Save(st.ctx)];
    if DirExists(st.fs, s.buildDir) then St(st.ctx, RemoveTree(st.fs, s.buildDir), NoRecord, t + [RemoveDir(s.buildDir)])
    else St(st.ctx, st.fs, st.rec, t)
  }

  /** `if (stat(build_dir) == -1) rec_mkdir(build_dir)`. */
  function EnsureBuildDir(s: Settings, st: St<Record>): St<Record> {
    if DirExists(st.fs, s.buildDir) then st
    else
      var calls := MkdirCalls(s.buildDir);
      st.(fs := AddDirs(st.fs, calls), trace := st.trace + Mkdirs(calls))
  }

  /** Reset saves the context it holds and removes directories; it runs no command. */
  lemma {:induction false} ResetQuiet(s: Settings, st: St<Record>)
    requires Quiet(st.trace, st.ctx)
    ensures Reset(s, st).ctx == st.ctx && Quiet(Reset(s, st).trace, st.ctx)
  {
    QuietAppend(st.trace, [Save(st.ctx)], st.ctx);
    QuietAppend(st.trace + [Save(st.ctx)], [RemoveDir(s.buildDir)], st.ctx);
  }

  /** EnsureBuildDir only makes directories. */
  lemma {:induction false} EnsureBuildDirQuiet(s: Settings, st: St<Record>, ctx: BuildContext)
    requires Quiet(st.trace, ctx)
    ensures EnsureBuildDir(s, st).ctx == st.ctx && EnsureBuildDir(s, st).rec == st.rec
    ensures Quiet(EnsureBuildDir(s, st).trace, ctx)
  {
    if !DirExists(st.fs, s.buildDir) {
      var calls := MkdirCalls(s.buildDir);
      MkdirsQuiet(calls, ctx);
      QuietAppend(st.trace, Mkdirs(calls), ctx);
    }
  }

  /** main from get_build to the lock: the state handed on once the lock is taken. */
  function Prepare(s: Settings, conf: Config, fs: Fs, rec: Record, w: World): Step<Record> {
    match Load(s, fs, rec, w)
    case LoadAborted => Stop(Outcome(Aborted, [], fs, rec))
    case Loaded(ctx, rec1) =>
      var st0 := St(ctx, fs, rec1, []);
      var st1 := if ctx.lastMode != conf.mode || conf.clean then Reset(s, st0) else st0;
      var st2 := EnsureBuildDir(s, st1);
      if ctx.lock then Stop(Outcome(Returned(1), st2.trace, st2.fs, st2.rec))
      else
        var locked := ctx.(lock := true);
        Next(St(locked, st2.fs, SavedRecord(s, st2.fs, st2.rec), st2.trace + [Save(locked)]))
  }

  /** The self-rebuild trigger. */
  predicate SelfRebuildDue(s: Settings, conf: Config, st: St<Record>, w: World) {
    st.ctx.lastModif < StatTime(st.fs, w, s.buildC) || st.ctx.lastMode != conf.mode || conf.buildOnly
  }

  /**
   * The self-rebuild: compile build.c; on failure return its status, lock
   * still held; on success record the time, release the lock, save, and
   * either stop (build-only) or return the status of the re-run tool.
   */
  function SelfRebuild(s: Settings, argv: seq<string>, conf: Config, st: St<Record>, w: World): Step<Record> {
    if !SelfRebuildDue(s, conf, st, w) then Next(st)
    else
      var cmd := SelfBuildCommand(s, conf.mode);
      var t := st.trace + [Exec(cmd)];
      if w.exitOf(cmd) != 0 then Stop(Outcome(Returned(w.exitOf(cmd)), t, st.fs, st.rec))
      else
        var ctx := st.ctx.(lastMode := conf.mode, lastModif := w.now, lastBuild := w.now, lock := false);
        var rec := SavedRecord(s, st.fs, st.rec);
        if conf.buildOnly then Stop(Outcome(Returned(0), t + [Save(ctx)], st.fs, rec))
        else
          var rerun := RerunCommand(s.buildExe, argv);
          Stop(Outcome(Returned(w.exitOf(rerun)), t + [Save(ctx), Exec(rerun)], st.fs, rec))
  }

  /** After a successful link (or none): record the build time, release the lock, save, then the hooks and the run. */
  function Finish(s: Settings, argv: seq<string>, conf: Config, ctx: BuildContext, fs: Fs, rec: Record, trace: seq<Event>, w: World): Outcome<Record> {
    var done := ctx.(lastBuild := w.now, lock := false);
    var t := trace + [Save(done)] + Execs(s.postBuild);
    var rec' := SavedRecord(s, fs, rec);
    if conf.run then
      var runCmd := RunCommand(s, argv, conf.runArgc);
      Outcome(Returned(w.exitOf(runCmd)), t + Execs(s.preRun) + [Exec(runCmd)] + Execs(s.postRun), fs, rec')
    else Outcome(Returned(0), t, fs, rec')
  }

  /** The target build: pre_build hooks, the compile loop, the link, then Finish. */
  function Build(s: Settings, argv: seq<string>, conf: Config, st: St<Record>, w: World): Outcome<Record> {
    AfterCompile(s, argv, conf, st, CompileAll(s, w, st.ctx.lastBuild, s.cSrc, st.fs), w)
  }

  /** The rest of the target build once the compile loop has ended as p: the link, then Finish, or the exit on failure. */
  function AfterCompile(s: Settings, argv: seq<string>, conf: Config, st: St<Record>, p: Pass, w: World): Outcome<Record> {
    var t := st.trace + Execs(s.preBuild) + p.trace;
    var released := st.ctx.(lock := false);
    if p.status == Failed then Outcome(Returned(2), t + [Save(released)], p.fs, SavedRecord(s, p.fs, st.rec))
    else if !p.change then Finish(s, argv, conf, st.ctx, p.fs, st.rec, t, w)
    else
      var link := LinkCommand(s, Parts(s.cSrc));
      if w.exitOf(link) != 0 then Outcome(Returned(2), t + [Exec(link)] + [Save(released)], p.fs, SavedRecord(s, p.fs, st.rec))
      else Finish(s, argv, conf, st.ctx, p.fs, st.rec, t + [Exec(link)], w)
  }

  /** A whole run of main. */
  function Run(s: Settings, argv: seq<string>, fs: Fs, rec: Record, w: World): Outcome<Record> {
    match Parse(argv)
    case ShowHelp => Outcome(Returned(0), [], fs, rec)
    case UnknownCommand(_) => Outcome(Returned(1), [], fs, rec)
    case Proceed(conf) =>
      match Prepare(s, conf, fs, rec, w)
      case Stop(out) => out
      case Next(st) =>
        match SelfRebuild(s, argv, conf, st, w)
        case Stop(out) => out
        case Next(st') => Build(s, argv, conf, st', w)
  }

  // ---------------------------------------------------------------------
  // main, step by step

  /** main from get_build to the lock check, on mutable locals. */
  method PrepareRun(s: Settings, conf: Config, fs0: Fs, rec0: Record, w: World) returns (r: Step<Record>)
    ensures r == Prepare(s, conf, fs0, rec0, w)
  {
    var fs, rec, trace := fs0, rec0, [];
    // get_build
    var ctx := ZeroContext;
    if rec.EmptyRecord? {
      return Stop(Outcome(Aborted, [], fs, rec));
    } else if rec.Written? {
      ctx := w.readBack;
    } else if DirExists(fs, s.buildDir) {
      rec := EmptyRecord;
    }
    if ctx.lastMode != conf.mode || conf.clean {
      trace := trace + [Save(ctx)];
      rec := SavedRecord(s, fs, rec);
      if DirExists(fs, s.buildDir) {
        trace := trace + [RemoveDir(s.buildDir)];
        fs := RemoveTree(fs, s.buildDir);
        rec := NoRecord;
      }
    }
    if !DirExists(fs, s.buildDir) {
      var calls := RecMkdir(s.buildDir);
      trace := trace + Mkdirs(calls);
      fs := AddDirs(fs, calls);
    }
    if ctx.lock {
      return Stop(Outcome(Returned(1), trace, fs, rec));
    }
    ctx := ctx.(lock := true);
    trace := trace + [Save(ctx)];
    rec := SavedRecord(s, fs, rec);
    r := Next(St(ctx, fs, rec, trace));
  }

  /** The self-rebuild block of main. */
  method RebuildSelf(s: Settings, argv: seq<string>, conf: Config, st: St<Record>, w: World) returns (r: Step<Record>)
    ensures r == SelfRebuild(s, argv, conf, st, w)
  {
    var ctx, trace := st.ctx, st.trace;
    if !(ctx.lastModif < StatTime(st.fs, w, s.buildC) || ctx.lastMode != conf.mode || conf.buildOnly) {
      return Next(st);
    }
    ctx := ctx.(lastMode := conf.mode);
    var cmd := SelfBuildCommand(s, conf.mode);
    trace := trace + [Exec(cmd)];
    var ret := w.exitOf(cmd);
    if ret != 0 {
      return Stop(Outcome(Returned(ret), trace, st.fs, st.rec));
    }
    ctx := ctx.(lastModif := w.now, lastBuild := w.now, lock := false);
    trace := trace + [Save(ctx)];
    var rec := SavedRecord(s, st.fs, st.rec);
    if !conf.buildOnly {
      var rerun := BuildRerunCommand(s.buildExe, argv);
      trace := trace + [Exec(rerun)];
      return Stop(Outcome(Returned(w.exitOf(rerun)), trace, st.fs, rec));
    }
    r := Stop(Outcome(Returned(0), trace, st.fs, rec));
  }

  /** One pass of main's compile loop on a running loop: compile_file, then the check of its status. */
  method CompilePass(s: Settings, w: World, ctx: BuildContext, p: Pass, path: string) returns (q: Pass)
    requires p.status == Running
    ensures q == CompileStep(s, w, ctx.lastBuild, p, path)
  {
    var u := CompileFile(s, p.fs, w, path, ctx);
    if u.changed && u.ret != 0 {
      return Pass(p.change, u.fs, p.trace + u.events, Failed);
    }
    q := Pass(p.change || u.changed, u.fs, p.trace + u.events, Running);
  }

  /** main's compile loop: each unit in turn, stopping at the first failed compile of a stale unit. */
  method CompileUnits(s: Settings, w: World, ctx: BuildContext, fs0: Fs) returns (p: Pass)
    ensures p == CompileAll(s, w, ctx.lastBuild, s.cSrc, fs0)
  {
    p := Pass(false, fs0, [], Running);
    var i := 0;
    while i < |s.cSrc|
      invariant 0 <= i <= |s.cSrc|
      invariant p == CompileAll(s, w, ctx.lastBuild, s.cSrc[..i], fs0) && p.status == Running
    {
      var q := CompilePass(s, w, ctx, p, s.cSrc[i]);
      LoopStep(s, w, ctx.lastBuild, s.cSrc, fs0, i, p, q);
      if q.status != Running {
        return q;
      }
      p := q;
      i := i + 1;
    }
    assert s.cSrc[..|s.cSrc|] == s.cSrc;
  }

  /** main from the pre_build hooks to its return. */
  method BuildTarget(s: Settings, argv: seq<string>, conf: Config, st: St<Record>, w: World) returns (out: Outcome<Record>)
    ensures out == Build(s, argv, conf, st, w)
  {
    var ctx := st.ctx;
    var trace := RunHooks(s.preBuild, st.trace);
    var p := CompileUnits(s, w, ctx, st.fs);
    trace := trace + p.trace;
    if p.status == Failed {
      ctx := ctx.(lock := false);
      trace := trace + [Save(ctx)];
      return Outcome(Returned(2), trace, p.fs, SavedRecord(s, p.fs, st.rec));
    }
    if p.change {
      var ok, link := CompileExe(s, w);
      trace := trace + [Exec(link)];
      if !ok {
        ctx := ctx.(lock := false);
        trace := trace + [Save(ctx)];
        return Outcome(Returned(2), trace, p.fs, SavedRecord(s, p.fs, st.rec));
      }
    }
    out := FinishRun(s, argv, conf, ctx, p.fs, st.rec, trace, w);
  }

  /** main's last save, hooks and run. */
  method FinishRun(s: Settings, argv: seq<string>, conf: Config, ctx0: BuildContext, fs: Fs, rec: Record, trace0: seq<Event>, w: World)
    returns (out: Outcome<Record>)
    ensures out == Finish(s, argv, conf, ctx0, fs, rec, trace0, w)
  {
    var ctx := ctx0.(lastBuild := w.now, lock := false);
    var trace := trace0 + [Save(ctx)];
    trace := RunHooks(s.postBuild, trace);
    var ret := 0;
    if conf.run {
      trace := RunHooks(s.preRun, trace);
      var runCmd := BuildRunCommand(s, argv, conf.runArgc);
      trace := trace + [Exec(runCmd)];
      ret := w.exitOf(runCmd);
      trace := RunHooks(s.postRun, trace);
    }
    out := Outcome(Returned(ret), trace, fs, SavedRecord(s, fs, rec));
  }

  /** main: parse the arguments, then the three stages. */
  method RunBuild(s: Settings, argv: seq<string>, fs: Fs, rec: Record, w: World) returns (out: Outcome<Record>)
    ensures out == Run(s, argv, fs, rec, w)
  {
    var parsed := ParseArgs(argv);
    if parsed.ShowHelp? {
      return Outcome(Returned(0), [], fs, rec);
    } else if parsed.UnknownCommand? {
      return Outcome(Returned(1), [], fs, rec);
    }
    var conf := parsed.conf;
    var step := PrepareRun(s, conf, fs, rec, w);
    if step.Stop? {
      return step.out;
    }
    step := RebuildSelf(s, argv, conf, step.st, w);
    if step.Stop? {
      return step.out;
    }
    out := BuildTarget(s, argv, conf, step.st, w);
  }

  // ---------------------------------------------------------------------
  // Properties of a run

  /** "help" returns 0 and an unknown word returns 1, before anything is read or written. */
  lemma {:induction false} ParseExits(s: Settings, argv: seq<string>, fs: Fs, rec: Record, w: World)
    ensures Parse(argv).ShowHelp? ==> Run(s, argv, fs, rec, w) == Outcome(Returned(0), [], fs, rec)
    ensures Parse(argv).UnknownCommand? ==> Run(s, argv, fs, rec, w) == Outcome(Returned(1), [], fs, rec)
  {
  }

  /**
   * A held lock: main returns 1. Up to then it only saved the context it
   * read (when the mode changed or clean was asked), removed and created
   * directories, and ran no command.
   */
  lemma {:induction false} LockHeldStops(s: Settings, argv: seq<string>, fs: Fs, rec: Record, w: World)
    requires Parse(argv).Proceed?
    requires Load(s, fs, rec, w).Loaded? && Load(s, fs, rec, w).ctx.lock
    ensures var out := Run(s, argv, fs, rec, w);
            out.exit == Returned(1)
            && (forall k :: 0 <= k < |out.trace| ==> !out.trace[k].Exec?)
            && (forall k :: 0 <= k < |out.trace| && out.trace[k].Save? ==> out.trace[k].ctx == Load(s, fs, rec, w).ctx)
  {
    var conf := Parse(argv).conf;
    var l := Load(s, fs, rec, w);
    var st0 := St(l.ctx, fs, l.rec, []);
    var st1 := if l.ctx.lastMode != conf.mode || conf.clean then Reset(s, st0) else st0;
    if l.ctx.lastMode != conf.mode || conf.clean { ResetQuiet(s, st0); }
    var st2 := EnsureBuildDir(s, st1);
    EnsureBuildDirQuiet(s, st1, l.ctx);
    assert Prepare(s, conf, fs, rec, w) == Stop(Outcome(Returned(1), st2.trace, st2.fs, st2.rec));
  }


  /** The state Prepare hands on holds the lock, and saving it was the last thing done. */
  lemma {:induction false} PrepareLocks(s: Settings, conf: Config, fs: Fs, rec: Record, w: World)
    requires Prepare(s, conf, fs, rec, w).Next?
    ensures var st := Prepare(s, conf, fs, rec, w).st;
            st.ctx == Load(s, fs, rec, w).ctx.(lock := true)
            && |st.trace| > 0 && st.trace[|st.trace| - 1] == Save(st.ctx)
            && (forall k :: 0 <= k < |st.trace| ==> !st.trace[k].Exec?)
            && st.rec == SavedRecord(s, st.fs, st.rec)
  {
    var l := Load(s, fs, rec, w);
    var st0 := St(l.ctx, fs, l.rec, []);
    var st1 := if l.ctx.lastMode != conf.mode || conf.clean then Reset(s, st0) else st0;
    if l.ctx.lastMode != conf.mode || conf.clean { ResetQuiet(s, st0); }
    var st2 := EnsureBuildDir(s, st1);
    EnsureBuildDirQuiet(s, st1, l.ctx);
    var locked := l.ctx.(lock := true);
    assert Prepare(s, conf, fs, rec, w).st.trace == st2.trace + [Save(locked)];
  }


  /** SelfRebuild hands on the state it was given, or ends the run after the actions it was handed. */
  lemma {:induction false} SelfRebuildExtendsTrace(s: Settings, argv: seq<string>, conf: Config, st: St<Record>, w: World)
    ensures var r := SelfRebuild(s, argv, conf, st, w);
            (r.Next? ==> r.st == st) && (r.Stop? ==> st.trace <= r.out.trace)
  {
  }

  /** Build only adds actions after the ones it was handed. */
  lemma {:induction false} BuildExtendsTrace(s: Settings, argv: seq<string>, conf: Config, st: St<Record>, w: World)
    ensures st.trace <= Build(s, argv, conf, st, w).trace
  {
    AfterCompileExtendsTrace(s, argv, conf, st, CompileAll(s, w, st.ctx.lastBuild, s.cSrc, st.fs), w);
  }

  lemma {:induction false} AfterCompileExtendsTrace(s: Settings, argv: seq<string>, conf: Config, st: St<Record>, p: Pass, w: World)
    ensures st.trace <= AfterCompile(s, argv, conf, st, p, w).trace
  {
    var t := st.trace + Execs(s.preBuild) + p.trace;
    assert st.trace <= t;
    var link := LinkCommand(s, Parts(s.cSrc));
    FinishExtendsTrace(s, argv, conf, st.ctx, p.fs, st.rec, t, w);
    FinishExtendsTrace(s, argv, conf, st.ctx, p.fs, st.rec, t + [Exec(link)], w);
  }

  lemma {:induction false} FinishExtendsTrace(s: Settings, argv: seq<string>, conf: Config, ctx: BuildContext, fs: Fs, rec: Record, trace: seq<Event>, w: World)
    ensures trace <= Finish(s, argv, conf, ctx, fs, rec, trace, w).trace
  {
  }

  /**
   * An unlocked run saves the context with lock = true before it executes
   * any command: before the self-rebuild, the hooks, the compiles and the link.
   */
  lemma {:induction false} LockTakenFirst(s: Settings, argv: seq<string>, fs: Fs, rec: Record, w: World)
    requires Parse(argv).Proceed?
    requires Load(s, fs, rec, w).Loaded? && !Load(s, fs, rec, w).ctx.lock
    ensures var t := Run(s, argv, fs, rec, w).trace;
            exists k :: 0 <= k < |t| && t[k] == Save(Load(s, fs, rec, w).ctx.(lock := true))
                        && forall j :: 0 <= j < k ==> !t[j].Exec?
  {
    var conf := Parse(argv).conf;
    var st := Prepare(s, conf, fs, rec, w).st;
    PrepareLocks(s, conf, fs, rec, w);
    var r := SelfRebuild(s, argv, conf, st, w);
    SelfRebuildExtendsTrace(s, argv, conf, st, w);
    BuildExtendsTrace(s, argv, conf, st, w);
    var t := if r.Stop? then r.out.trace else Build(s, argv, conf, st, w).trace;
    assert Run(s, argv, fs, rec, w).trace == t;
    var k := |st.trace| - 1;
    assert st.trace <= t;
    assert t[k] == st.trace[k];
    forall j | 0 <= j < k ensures !t[j].Exec? {
      assert t[j] == st.trace[j];
    }
  }


  /**
   * A failed self-rebuild returns the compiler's status and leaves the
   * lock held: the last context saved is the locked one.
   */
  lemma {:induction false} SelfRebuildFailureKeepsLock(s: Settings, argv: seq<string>, fs: Fs, rec: Record, w: World)
    requires Parse(argv).Proceed? && Prepare(s, Parse(argv).conf, fs, rec, w).Next?
    requires var conf, st := Parse(argv).conf, Prepare(s, Parse(argv).conf, fs, rec, w).st;
             SelfRebuildDue(s, conf, st, w) && w.exitOf(SelfBuildCommand(s, conf.mode)) != 0
    ensures var conf, st := Parse(argv).conf, Prepare(s, Parse(argv).conf, fs, rec, w).st;
            var out := Run(s, argv, fs, rec, w);
            out.exit == Returned(w.exitOf(SelfBuildCommand(s, conf.mode)))
            && LastSave(out.trace) == Some(st.ctx) && st.ctx.lock
            && out.rec == st.rec
  {
    var conf, st := Parse(argv).conf, Prepare(s, Parse(argv).conf, fs, rec, w).st;
    PrepareLocks(s, conf, fs, rec, w);
    var cmd := SelfBuildCommand(s, conf.mode);
    LastSaveAppend(st.trace, [Exec(cmd)]);
    assert st.trace == st.trace[..|st.trace| - 1] + [Save(st.ctx)];
    LastSaveAppend(st.trace[..|st.trace| - 1], [Save(st.ctx)]);
  }

  /** A self-build that exits with 0 ends the run: the mode and the time recorded, the lock released, then 0 or the re-run. */
  lemma {:induction false} SelfRebuildRecords(s: Settings, argv: seq<string>, conf: Config, st: St<Record>, w: World)
    requires SelfRebuildDue(s, conf, st, w) && w.exitOf(SelfBuildCommand(s, conf.mode)) == 0
    ensures SelfRebuild(s, argv, conf, st, w).Stop?
    ensures var out := SelfRebuild(s, argv, conf, st, w).out;
            var rerun := RerunCommand(s.buildExe, argv);
            LastSave(out.trace) == Some(st.ctx.(lastMode := conf.mode, lastModif := w.now, lastBuild := w.now, lock := false))
            && out.exit == Returned(if conf.buildOnly then 0 else w.exitOf(rerun))
            && out.trace[|st.trace|] == Exec(SelfBuildCommand(s, conf.mode))
            && (conf.buildOnly ==> |out.trace| == |st.trace| + 2)
            && (!conf.buildOnly ==> |out.trace| == |st.trace| + 3 && out.trace[|out.trace| - 1] == Exec(rerun))
  {
    var ctx := st.ctx.(lastMode := conf.mode, lastModif := w.now, lastBuild := w.now, lock := false);
    var cmd := SelfBuildCommand(s, conf.mode);
    var rerun := RerunCommand(s.buildExe, argv);
    LastSaveAppend(st.trace + [Exec(cmd)], [Save(ctx)]);
    LastSaveAppend(st.trace + [Exec(cmd)], [Save(ctx), Exec(rerun)]);
  }

  /**
   * A successful self-rebuild records the new mode and the time as both
   * last_modif and last_build, releases the lock, and then returns 0
   * (build-only) or the status of build_exe re-run without "clean".
   */
  lemma {:induction false} SelfRebuildSuccess(s: Settings, argv: seq<string>, fs: Fs, rec: Record, w: World)
    requires Parse(argv).Proceed? && Prepare(s, Parse(argv).conf, fs, rec, w).Next?
    requires var conf, st := Parse(argv).conf, Prepare(s, Parse(argv).conf, fs, rec, w).st;
             SelfRebuildDue(s, conf, st, w) && w.exitOf(SelfBuildCommand(s, conf.mode)) == 0
    ensures var conf, st := Parse(argv).conf, Prepare(s, Parse(argv).conf, fs, rec, w).st;
            var out := Run(s, argv, fs, rec, w);
            var rerun := RerunCommand(s.buildExe, argv);
            LastSave(out.trace) == Some(st.ctx.(lastMode := conf.mode, lastModif := w.now, lastBuild := w.now, lock := false))
            && out.exit == Returned(if conf.buildOnly then 0 else w.exitOf(rerun))
            && out.trace[|st.trace|] == Exec(SelfBuildCommand(s, conf.mode))
            && (conf.buildOnly ==> |out.trace| == |st.trace| + 2)
            && (!conf.buildOnly ==> |out.trace| == |st.trace| + 3 && out.trace[|out.trace| - 1] == Exec(rerun))
  {
    var conf, st := Parse(argv).conf, Prepare(s, Parse(argv).conf, fs, rec, w).st;
    SelfRebuildRecords(s, argv, conf, st, w);
  }

  /** Without the trigger, main goes straight on to the target build with the locked state. */
  lemma {:induction false} NoSelfRebuild(s: Settings, argv: seq<string>, fs: Fs, rec: Record, w: World)
    requires Parse(argv).Proceed? && Prepare(s, Parse(argv).conf, fs, rec, w).Next?
    requires !SelfRebuildDue(s, Parse(argv).conf, Prepare(s, Parse(argv).conf, fs, rec, w).st, w)
    ensures Run(s, argv, fs, rec, w) == Build(s, argv, Parse(argv).conf, Prepare(s, Parse(argv).conf, fs, rec, w).st, w)
  {
  }

  /**
   * A failed compile of a stale unit: it is the first stale unit whose
   * compile failed, every earlier unit went through, and no later unit
   * is looked at.
   */
  lemma {:induction false} CompileAllFailed(s: Settings, w: World, lastBuild: int, srcs: seq<string>, fs: Fs)
    requires CompileAll(s, w, lastBuild, srcs, fs).status == Failed
    ensures exists i :: 0 <= i < |srcs|
              && CompileAll(s, w, lastBuild, srcs[..i], fs).status == Running
              && Stale(s, fs, w, srcs[i], lastBuild)
              && w.exitOf(CompileCommand(s, srcs[i], SplitPath(srcs[i]))) != 0
              && CompileAll(s, w, lastBuild, srcs, fs) == CompileAll(s, w, lastBuild, srcs[..i + 1], fs)
  {
    var i := FailedUnit(s, w, lastBuild, srcs, fs);
  }

  /**
   * A failed compile ends the run with 2 right after releasing the lock:
   * the last event saves the context with lock = false, and no link or
   * hook follows.
   */
  lemma {:induction false} CompileFailureReleasesLock(s: Settings, argv: seq<string>, conf: Config, st: St<Record>, w: World)
    requires CompileAll(s, w, st.ctx.lastBuild, s.cSrc, st.fs).status == Failed
    ensures var out := Build(s, argv, conf, st, w);
            var p := CompileAll(s, w, st.ctx.lastBuild, s.cSrc, st.fs);
            out.exit == Returned(2)
            && out.trace == st.trace + Execs(s.preBuild) + p.trace + [Save(st.ctx.(lock := false))]
            && LastSave(out.trace) == Some(st.ctx.(lock := false))
  {
  }

  /**
   * Linking depends on staleness alone: the event right after the compile
   * loop is the link command exactly when some unit was stale, and the
   * link lists the object of every unit.
   */
  lemma {:induction false} LinkIffSomeUnitStale(s: Settings, argv: seq<string>, conf: Config, st: St<Record>, w: World)
    requires CompileAll(s, w, st.ctx.lastBuild, s.cSrc, st.fs).status == Running
    ensures var out := Build(s, argv, conf, st, w);
            var p := CompileAll(s, w, st.ctx.lastBuild, s.cSrc, st.fs);
            var n := |st.trace| + |s.preBuild| + |p.trace|;
            n < |out.trace|
            && (out.trace[n] == Exec(LinkCommand(s, Parts(s.cSrc))) <==>
                  exists i :: 0 <= i < |s.cSrc| && Stale(s, st.fs, w, s.cSrc[i], st.ctx.lastBuild))
  {
    var p := CompileAll(s, w, st.ctx.lastBuild, s.cSrc, st.fs);
    AfterCompileLinks(s, argv, conf, st, p, w, Build(s, argv, conf, st, w));
    CompileAllChange(s, w, st.ctx.lastBuild, s.cSrc, st.fs);
  }

  /** After a compile loop that got through, the next event is the link exactly when the loop saw a change. */
  lemma {:induction false} AfterCompileLinks(s: Settings, argv: seq<string>, conf: Config, st: St<Record>, p: Pass, w: World, out: Outcome<Record>)
    requires p.status == Running && out == AfterCompile(s, argv, conf, st, p, w)
    ensures var n := |st.trace| + |s.preBuild| + |p.trace|;
            n < |out.trace| && (out.trace[n] == Exec(LinkCommand(s, Parts(s.cSrc))) <==> p.change)
  {
    var t := st.trace + Execs(s.preBuild) + p.trace;
    var n := |t|;
    var link := LinkCommand(s, Parts(s.cSrc));
    if p.change {
      FinishExtendsTrace(s, argv, conf, st.ctx, p.fs, st.rec, t + [Exec(link)], w);
    } else {
      var done := st.ctx.(lastBuild := w.now, lock := false);
      FinishExtendsTrace(s, argv, conf, st.ctx, p.fs, st.rec, t, w);
      assert Finish(s, argv, conf, st.ctx, p.fs, st.rec, t, w).trace[n] == Save(done);
    }
  }

  /** A failed link returns 2 after releasing the lock, with last_build left as it was. */
  lemma {:induction false} LinkFailureReleasesLock(s: Settings, argv: seq<string>, conf: Config, st: St<Record>, w: World)
    requires CompileAll(s, w, st.ctx.lastBuild, s.cSrc, st.fs).status == Running
    requires CompileAll(s, w, st.ctx.lastBuild, s.cSrc, st.fs).change
    requires w.exitOf(LinkCommand(s, Parts(s.cSrc))) != 0
    ensures var out := Build(s, argv, conf, st, w);
            out.exit == Returned(2) && out.trace[|out.trace| - 1] == Save(st.ctx.(lock := false))
  {
  }

  /**
   * A build that gets through compiling and linking records the time as
   * last_build, releases the lock, and returns the target's status when
   * run with "--" (0 otherwise); pre_run and post_run run only with "--".
   */
  lemma {:induction false} BuildSuccess(s: Settings, argv: seq<string>, conf: Config, st: St<Record>, w: World)
    requires CompileAll(s, w, st.ctx.lastBuild, s.cSrc, st.fs).status == Running
    requires CompileAll(s, w, st.ctx.lastBuild, s.cSrc, st.fs).change ==> w.exitOf(LinkCommand(s, Parts(s.cSrc))) == 0
    ensures var out := Build(s, argv, conf, st, w);
            var runCmd := RunCommand(s, argv, conf.runArgc);
            LastSave(out.trace) == Some(st.ctx.(lastBuild := w.now, lock := false))
            && out.exit == Returned(if conf.run then w.exitOf(runCmd) else 0)
            && (!conf.run ==> out.trace[|out.trace| - |s.postBuild| - 1] == Save(st.ctx.(lastBuild := w.now, lock := false)))
  {
    var p := CompileAll(s, w, st.ctx.lastBuild, s.cSrc, st.fs);
    AfterCompileIsFinish(s, argv, conf, st, p, w);
    FinishRecordsBuild(s, argv, conf, st.ctx, p.fs, st.rec, BuildTrace(s, st, p), w);
  }

  /** The trace up to Finish of a build whose compile loop ended as p and whose link, if any, succeeded. */
  function BuildTrace(s: Settings, st: St<Record>, p: Pass): seq<Event> {
    var t := st.trace + Execs(s.preBuild) + p.trace;
    if p.change then t + [Exec(LinkCommand(s, Parts(s.cSrc)))] else t
  }

  /** A compile loop that got through, and a link that succeeded if it ran, go on to Finish. */
  lemma {:induction false} AfterCompileIsFinish(s: Settings, argv: seq<string>, conf: Config, st: St<Record>, p: Pass, w: World)
    requires p.status == Running
    requires p.change ==> w.exitOf(LinkCommand(s, Parts(s.cSrc))) == 0
    ensures AfterCompile(s, argv, conf, st, p, w) == Finish(s, argv, conf, st.ctx, p.fs, st.rec, BuildTrace(s, st, p), w)
  {
  }

  lemma {:induction false} FinishRecordsBuild(s: Settings, argv: seq<string>, conf: Config, ctx: BuildContext, fs: Fs, rec: Record, trace: seq<Event>, w: World)
    ensures var out := Finish(s, argv, conf, ctx, fs, rec, trace, w);
            var runCmd := RunCommand(s, argv, conf.runArgc);
            var done := ctx.(lastBuild := w.now, lock := false);
            LastSave(out.trace) == Some(done)
            && out.exit == Returned(if conf.run then w.exitOf(runCmd) else 0)
            && (!conf.run ==> out.trace[|out.trace| - |s.postBuild| - 1] == Save(done))
  {
    var done := ctx.(lastBuild := w.now, lock := false);
    var runCmd := RunCommand(s, argv, conf.runArgc);
    var t2 := trace + [Save(done)] + Execs(s.postBuild);
    LastSaveAppend(trace + [Save(done)], Execs(s.postBuild));
    if conf.run {
      LastSaveAppend(t2, Execs(s.preRun));
      LastSaveAppend(t2 + Execs(s.preRun), [Exec(runCmd)]);
      LastSaveAppend(t2 + Execs(s.preRun) + [Exec(runCmd)], Execs(s.postRun));
    } else {
      assert t2[|t2| - |s.postBuild| - 1] == Save(done);
    }
  }

  /**
   * A clean, or a change of mode, removes build_dir with every ledger in
   * it: afterwards every unit is stale, so the next compile loop rebuilds
   * them all.
   */
  lemma {:induction false} ResetMakesEveryUnitStale(s: Settings, conf: Config, fs: Fs, rec: Record, w: World, path: string, lastBuild: int)
    requires Load(s, fs, rec, w).Loaded?
    requires Load(s, fs, rec, w).ctx.lastMode != conf.mode || conf.clean
    requires DirExists(fs, s.buildDir)
    ensures var r := Prepare(s, conf, fs, rec, w);
            var fs' := if r.Next? then r.st.fs else r.out.fs;
            Ledger(s, path) !in fs'.ledgers && Stale(s, fs', w, path, lastBuild)
  {
    LedgerFileWithin(s.buildDir, SplitPath(path));
    ResetDropsLedgers(s, conf, fs, rec, w);
  }

  /** After a clean or a change of mode no ledger inside build_dir is left. */
  lemma {:induction false} ResetDropsLedgers(s: Settings, conf: Config, fs: Fs, rec: Record, w: World)
    requires Load(s, fs, rec, w).Loaded?
    requires Load(s, fs, rec, w).ctx.lastMode != conf.mode || conf.clean
    requires DirExists(fs, s.buildDir)
    ensures var r := Prepare(s, conf, fs, rec, w);
            var fs' := if r.Next? then r.st.fs else r.out.fs;
            forall l :: Within(s.buildDir, l) ==> l !in fs'.ledgers
  {
  }

}
