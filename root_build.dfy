/**
 * The root draft of the build tool (build.c).
 *
 * What sets it apart from the hello_world draft: the record is written and
 * read field by field, so a saved context reads back as itself; stat
 * failures abort through assert (a missing source, dependency or build.c);
 * check_deps only looks at ledger tokens that end in 'h' and contain "src",
 * on every line and at every position; `change` is overwritten by each
 * unit, so only the last unit decides the link; a failed link is only
 * reported; the self-build uses cc; pre_run and post_run always run.
 */
module RootBuild {
  import opened CLib
  import opened BuildModel

  /** BUFFER_SIZE: the size of every buffer in build.c. */
  const BufferSize := 1023

  /** One value of the record file, in the order set_build writes them. */
  datatype Cell = Long(n: int) | ModeCell(m: Mode) | BoolCell(b: bool)

  /** The record file build_dir/build_exe.lock: missing, or the cells it holds (none when just created). */
  datatype Record = NoRecord | Stored(cells: seq<Cell>)

  /** What a run depends on besides the file system: the status pclose returns for each command, and the time. */
  datatype World = World(exitOf: string -> int, now: int)

  // ---------------------------------------------------------------------
  // The record file

  /** set_build's four fwrite calls: last_build, last_modif, last_mode, lock. */
  function Encode(ctx: BuildContext): (cells: seq<Cell>)
    ensures |cells| == 4
  {
    [Long(ctx.lastBuild), Long(ctx.lastModif), ModeCell(ctx.lastMode), BoolCell(ctx.lock)]
  }

  /** get_build's four fread calls, in the same order; a short or foreign record fails an assert. */
  function Decode(cells: seq<Cell>): Option<BuildContext> {
    if |cells| >= 4 && cells[0].Long? && cells[1].Long? && cells[2].ModeCell? && cells[3].BoolCell?
    then Some(BuildContext(cells[3].b, cells[0].n, cells[1].n, cells[2].m))
    else None
  }

  /** What set_build writes, get_build reads back. */
  lemma {:induction false} DecodeEncode(ctx: BuildContext)
    ensures Decode(Encode(ctx)) == Some(ctx)
  {
  }

  /** A record that decodes starts with the encoding of what it decodes to; the rest is never read. */
  lemma {:induction false} DecodeReadsEncoding(cells: seq<Cell>)
    requires Decode(cells).Some?
    ensures cells[..4] == Encode(Decode(cells).value)
    ensures forall more :: Decode(cells + more) == Decode(cells)
  {
    assert forall more: seq<Cell>, k :: 0 <= k < 4 ==> (cells + more)[k] == cells[k];
  }

  /** set_build: fopen(lockfile, "w") succeeds only while build_dir exists. */
  function SavedRecord(s: Settings, fs: Fs, rec: Record, ctx: BuildContext): Record {
    if DirExists(fs, s.buildDir) then Stored(Encode(ctx)) else rec
  }

  /** set_build, value by value. */
  method SetBuild(s: Settings, fs: Fs, rec: Record, ctx: BuildContext) returns (r: Record)
    ensures r == SavedRecord(s, fs, rec, ctx)
  {
    if !DirExists(fs, s.buildDir) {
      return rec;
    }
    var cells := [];
    cells := cells + [Long(ctx.lastBuild)];
    cells := cells + [Long(ctx.lastModif)];
    cells := cells + [ModeCell(ctx.lastMode)];
    cells := cells + [BoolCell(ctx.lock)];
    r := Stored(cells);
  }

  /** What get_build leaves behind: the context and the record file, or an abort. */
  datatype Loaded = Loaded(ctx: BuildContext, rec: Record) | LoadAborted

  /**
   * get_build: a missing record is created empty (when build_dir exists)
   * and the context stays zero; otherwise the four values are read, and a
   * record that does not hold them aborts.
   */
  function Load(s: Settings, fs: Fs, rec: Record): Loaded {
    match rec
    case NoRecord => Loaded(ZeroContext, if DirExists(fs, s.buildDir) then Stored([]) else NoRecord)
    case Stored(cells) =>
      match Decode(cells)
      case None => LoadAborted
      case Some(ctx) => Loaded(ctx, rec)
  }

  /** get_build, value by value. */
  method GetBuild(s: Settings, fs: Fs, rec: Record) returns (l: Loaded)
    ensures l == Load(s, fs, rec)
  {
    var ctx := ZeroContext;
    if rec.NoRecord? {
      return Loaded(ctx, if DirExists(fs, s.buildDir) then Stored([]) else NoRecord);
    }
    var cells := rec.cells;
    if |cells| < 1 || !cells[0].Long? { return LoadAborted; }
    ctx := ctx.(lastBuild := cells[0].n);
    if |cells| < 2 || !cells[1].Long? { return LoadAborted; }
    ctx := ctx.(lastModif := cells[1].n);
    if |cells| < 3 || !cells[2].ModeCell? { return LoadAborted; }
    ctx := ctx.(lastMode := cells[2].m);
    if |cells| < 4 || !cells[3].BoolCell? { return LoadAborted; }
    ctx := ctx.(lock := cells[3].b);
    l := Loaded(ctx, rec);
  }

  /** A context saved while build_dir exists is the context the next get_build reads. */
  lemma {:induction false} SaveThenLoad(s: Settings, fs: Fs, rec: Record, ctx: BuildContext)
    requires DirExists(fs, s.buildDir)
    ensures Load(s, fs, SavedRecord(s, fs, rec, ctx)) == Loaded(ctx, Stored(Encode(ctx)))
  {
    DecodeEncode(ctx);
  }

  // ---------------------------------------------------------------------
  // Paths

  /** dirname and basename of strdup'ed copies: no truncation here. */
  function SplitPath(path: string): PathParts {
    PathParts(Dirname(path), Basename(path))
  }

  /** The parts of every configured source, in order. */
  function Parts(srcs: seq<string>): (ps: seq<PathParts>)
    ensures |ps| == |srcs|
    ensures forall i :: 0 <= i < |srcs| ==> ps[i] == SplitPath(srcs[i])
  {
    seq(|srcs|, i requires 0 <= i < |srcs| => SplitPath(srcs[i]))
  }

  /** A unit d/n.e has its object at build_dir/d/n.o and its ledger at build_dir/d/n.d. */
  lemma {:induction false} PartsFiles(buildDir: string, srcs: seq<string>, i: nat, d: string, n: string, e: string)
    requires i < |srcs| && srcs[i] == d + "/" + n + "." + e
    requires |d| > 0 && d[|d| - 1] != '/' && |n| > 0 && '.' !in n && '/' !in n && '/' !in e
    ensures Parts(srcs)[i] == PathParts(d, n + "." + e)
    ensures ObjectFile(buildDir, Parts(srcs)[i]) == buildDir + "/" + d + "/" + n + ".o"
    ensures LedgerFile(buildDir, Parts(srcs)[i]) == buildDir + "/" + d + "/" + n + ".d"
  {
    var b := n + "." + e;
    assert '/' !in b by {
      forall j | 0 <= j < |b| ensures b[j] != '/' { if j < |n| { assert b[j] == n[j]; } else if j > |n| { assert b[j] == e[j - |n| - 1]; } }
    }
    assert srcs[i] == d + "/" + b;
    SplitDirBase(d, b);
    StemOfDotted(n, e);
    FilesOfStem(buildDir, PathParts(d, b), n);
  }

  /** A unit n.e without a directory has its object at build_dir/./n.o and its ledger at build_dir/./n.d. */
  lemma {:induction false} PlainPartsFiles(buildDir: string, srcs: seq<string>, i: nat, n: string, e: string)
    requires i < |srcs| && srcs[i] == n + "." + e
    requires |n| > 0 && '.' !in n && '/' !in n && '/' !in e
    ensures Parts(srcs)[i] == PathParts(".", n + "." + e)
    ensures ObjectFile(buildDir, Parts(srcs)[i]) == buildDir + "/./" + n + ".o"
    ensures LedgerFile(buildDir, Parts(srcs)[i]) == buildDir + "/./" + n + ".d"
  {
    var b := n + "." + e;
    assert '/' !in b by {
      forall j | 0 <= j < |b| ensures b[j] != '/' { if j < |n| { assert b[j] == n[j]; } else if j > |n| { assert b[j] == e[j - |n| - 1]; } }
    }
    assert srcs[i] == b;
    SplitPlainName(b);
    assert SplitPath(srcs[i]) == PathParts(".", b);
    StemOfDotted(n, e);
    FilesOfStem(buildDir, PathParts(".", b), n);
    DotDirText(buildDir);
  }

  /** `tmp[len - 1] = tmp[len - 1] == '/' ? 0 : tmp[len - 1]`: one trailing '/' goes. */
  function StripOneSlash(u: string): string {
    if |u| > 0 && u[|u| - 1] == '/' then u[..|u| - 1] else u
  }

  /** The mkdir calls rec_mkdir(dir) makes: dir cut to BUFFER_SIZE - 1 characters, one trailing '/' dropped, walked. */
  function MkdirCalls(dir: string): seq<string> {
    MkdirSequence(StripOneSlash(Truncate(CStr(dir), BufferSize - 1)))
  }

  /** rec_mkdir. */
  method RecMkdir(dir: string) returns (calls: seq<string>)
    ensures calls == MkdirCalls(dir)
  {
    var tmp := new char[BufferSize](_ => '\0');
    var src := Truncate(CStr(dir), BufferSize - 1);
    forall i | 0 <= i < |src| {
      tmp[i] := src[i];
    }
    var len := |src|;
    assert tmp[..len] == src;
    if len > 0 && tmp[len - 1] == '/' {
      tmp[len - 1] := '\0';
      assert tmp[..len - 1] == src[..len - 1];
      CStrAt(tmp[..], len - 1);
    } else {
      CStrAt(tmp[..], len);
    }
    calls := MkdirWalk(tmp);
  }

  /** For a short C string, rec_mkdir creates the ancestors of dir without its trailing '/', then that path. */
  lemma {:induction false} MkdirCallsOfShortPath(dir: string)
    requires NoNul(dir) && |dir| < BufferSize
    ensures MkdirCalls(dir) == MkdirSequence(StripOneSlash(dir))
  {
    CStrOfNoNul(dir);
  }

  /** A trailing '/' changes nothing: "d/" and "d" make the same calls. */
  lemma {:induction false} MkdirTrailingSlash(d: string)
    requires NoNul(d) && |d| + 1 < BufferSize && (d == [] || d[|d| - 1] != '/')
    ensures MkdirCalls(d + "/") == MkdirCalls(d)
  {
    MkdirCallsOfShortPath(d);
    assert NoNul(d + "/") by {
      forall k | 0 <= k < |d| + 1 ensures (d + "/")[k] != '\0' {
        if k < |d| { assert (d + "/")[k] == d[k]; }
      }
    }
    MkdirCallsOfShortPath(d + "/");
    assert (d + "/")[..|d|] == d;
  }

  // ---------------------------------------------------------------------
  // Staleness

  /**
   * The filter check_deps applies to a ledger token: the path it stats,
   * if any. strnlen caps the length at BUFFER_SIZE; a newline at that
   * position is cut off; a token longer than the cap that was not cut is
   * skipped; what is left must end in 'h' and contain "src".
   */
  function DepPath(t: string): Option<string> {
    var n := if |t| < BufferSize then |t| else BufferSize;
    var cut := n > 0 && t[n - 1] == '\n';
    var m := if cut then n - 1 else n;
    if (!cut && n < |t|) || m == 0 || t[m - 1] != 'h' then None
    else if Contains(t[..m], "src") then Some(t[..m])
    else None
  }

  /** For a token of fewer than BUFFER_SIZE characters the filter is plain: strip the newline, then ends in 'h' and contains "src". */
  lemma {:induction false} DepPathOfShortToken(t: string)
    requires |t| < BufferSize
    ensures var u := StripNewline(t);
            DepPath(t) == if |u| > 0 && u[|u| - 1] == 'h' && Contains(u, "src") then Some(u) else None
  {
    assert t[..|t|] == t;
  }

  /** A considered token whose path does not exist: its stat assert fails. */
  predicate MissingToken(fs: Fs, t: string) {
    DepPath(t).Some? && DepPath(t).value !in fs.mtime
  }

  /** A considered token whose path exists and is not older than lastBuild. */
  predicate NewerToken(fs: Fs, t: string, lastBuild: int) {
    DepPath(t).Some? && DepPath(t).value in fs.mtime && fs.mtime[DepPath(t).value] >= lastBuild
  }

  predicate MissingDepOnLine(fs: Fs, line: string) {
    exists j :: 0 <= j < |LineTokens(line)| && MissingToken(fs, LineTokens(line)[j])
  }

  predicate NewerDepOnLine(fs: Fs, line: string, lastBuild: int) {
    exists j :: 0 <= j < |LineTokens(line)| && NewerToken(fs, LineTokens(line)[j], lastBuild)
  }

  predicate MissingDep(fs: Fs, lines: seq<string>) {
    exists i :: 0 <= i < |lines| && MissingDepOnLine(fs, lines[i])
  }

  predicate NewerDep(fs: Fs, lines: seq<string>, lastBuild: int) {
    exists i :: 0 <= i < |lines| && NewerDepOnLine(fs, lines[i], lastBuild)
  }

  /** The ledger build_dir/dir/stem.d of a source. */
  function Ledger(s: Settings, path: string): string {
    LedgerFile(s.buildDir, SplitPath(path))
  }

  /**
   * check_deps' answer, None when one of its asserts aborts the run: a
   * missing source aborts; a source not older than lastBuild, or a
   * ledger that cannot be opened, means stale; otherwise a considered
   * dependency that is missing aborts, and the unit is stale iff some
   * considered dependency is not older than lastBuild.
   */
  function Staleness(s: Settings, fs: Fs, path: string, lastBuild: int): Option<bool> {
    if path !in fs.mtime then None
    else if fs.mtime[path] >= lastBuild then Some(true)
    else if Ledger(s, path) !in fs.ledgers then Some(true)
    else
      var lines := fs.ledgers[Ledger(s, path)];
      if MissingDep(fs, lines) then None else Some(NewerDep(fs, lines, lastBuild))
  }

  /** check_deps' inner loop over the tokens of one ledger line: does a considered token abort, and is one newer. */
  method ScanLine(fs: Fs, line: string, lastBuild: int) returns (missing: bool, newer: bool)
    ensures missing == MissingDepOnLine(fs, line)
    ensures !missing ==> (newer == NewerDepOnLine(fs, line, lastBuild))
  {
    var toks := LineTokens(line);
    newer := false;
    var k := 0;
    while k < |toks|
      invariant 0 <= k <= |toks|
      invariant forall j :: 0 <= j < k ==> !MissingToken(fs, toks[j])
      invariant newer <==> exists j :: 0 <= j < k && NewerToken(fs, toks[j], lastBuild)
    {
      var dep := DepPath(toks[k]);
      if dep.Some? {
        if dep.value !in fs.mtime {
          assert MissingToken(fs, toks[k]);
          return true, newer;
        }
        if fs.mtime[dep.value] >= lastBuild {
          newer := true;
        }
      }
      k := k + 1;
    }
    missing := false;
  }

  /** check_deps: the stat assert, the two short-circuits, then every token of every line. */
  method CheckDeps(s: Settings, fs: Fs, path: string, ctx: BuildContext) returns (r: Option<bool>)
    ensures r == Staleness(s, fs, path, ctx.lastBuild)
  {
    if path !in fs.mtime {
      return None;
    }
    if fs.mtime[path] >= ctx.lastBuild {
      return Some(true);
    }
    var p := SplitPath(path);
    var ledger := LedgerFile(s.buildDir, p);
    if ledger !in fs.ledgers {
      return Some(true);
    }
    r := ScanLedger(fs, fs.ledgers[ledger], ctx.lastBuild);
  }

  /** check_deps' outer loop over the lines of a ledger. */
  method ScanLedger(fs: Fs, lines: seq<string>, lastBuild: int) returns (r: Option<bool>)
    ensures r == if MissingDep(fs, lines) then None else Some(NewerDep(fs, lines, lastBuild))
  {
    var depChanged := false;
    var i := 0;
    while i < |lines|
      invariant 0 <= i <= |lines|
      invariant forall i' :: 0 <= i' < i ==> !MissingDepOnLine(fs, lines[i'])
      invariant depChanged <==> exists i' :: 0 <= i' < i && NewerDepOnLine(fs, lines[i'], lastBuild)
    {
      var missing, newer := ScanLine(fs, lines[i], lastBuild);
      if missing {
        assert MissingDep(fs, lines);
        return None;
      }
      depChanged := depChanged || newer;
      i := i + 1;
    }
    return Some(depChanged);
  }

  /** Only the mtime map and the ledgers matter to staleness: creating directories never changes a verdict. */
  lemma {:induction false} StalenessIgnoresDirs(s: Settings, fs: Fs, fs': Fs, path: string, lastBuild: int)
    requires fs'.mtime == fs.mtime && fs'.ledgers == fs.ledgers
    ensures Staleness(s, fs', path, lastBuild) == Staleness(s, fs, path, lastBuild)
  {
    assert forall t :: MissingToken(fs', t) == MissingToken(fs, t);
    assert forall t :: NewerToken(fs', t, lastBuild) == NewerToken(fs, t, lastBuild);
    assert forall line :: MissingDepOnLine(fs', line) == MissingDepOnLine(fs, line);
    assert forall line :: NewerDepOnLine(fs', line, lastBuild) == NewerDepOnLine(fs, line, lastBuild);
  }

  /** A ledger line whose tokens the filter lets through only when they name headers under src. */
  lemma {:induction false} OnlySourceHeadersCount(fs: Fs, line: string, lastBuild: int)
    requires forall j :: 0 <= j < |LineTokens(line)| ==> |LineTokens(line)[j]| < BufferSize
    ensures NewerDepOnLine(fs, line, lastBuild) <==>
      exists j :: 0 <= j < |LineTokens(line)|
        && var u := StripNewline(LineTokens(line)[j]);
           |u| > 0 && u[|u| - 1] == 'h' && Contains(u, "src") && u in fs.mtime && fs.mtime[u] >= lastBuild
  {
    forall j | 0 <= j < |LineTokens(line)| {
      DepPathOfShortToken(LineTokens(line)[j]);
    }
  }

  // ---------------------------------------------------------------------
  // Compiling and linking

  /** compile_file's effect, None when check_deps aborts. */
  function Compile(s: Settings, fs: Fs, w: World, path: string, lastBuild: int): (r: Option<UnitRun>)
    ensures r.None? <==> Staleness(s, fs, path, lastBuild).None?
    ensures r.Some? ==> r.value.changed == Staleness(s, fs, path, lastBuild).value
    ensures r.Some? && !r.value.changed ==> r.value == UnitRun(false, 0, fs, [])
    ensures r.Some? ==> r.value.fs.mtime == fs.mtime && r.value.fs.ledgers == fs.ledgers
  {
    match Staleness(s, fs, path, lastBuild)
    case None => None
    case Some(stale) =>
      if !stale then Some(UnitRun(false, 0, fs, []))
      else
        var p := SplitPath(path);
        var od := OutputDir(s.buildDir, p);
        var calls := if DirExists(fs, od) then [] else MkdirCalls(od);
        var cmd := CompileCommand(s, path, p);
        Some(UnitRun(true, w.exitOf(cmd), AddDirs(fs, calls), Mkdirs(calls) + [Exec(cmd)]))
  }

  /** compile_file. */
  method CompileFile(s: Settings, fs: Fs, w: World, path: string, ctx: BuildContext) returns (r: Option<UnitRun>)
    ensures r == Compile(s, fs, w, path, ctx.lastBuild)
  {
    var p := SplitPath(path);
    var changed := CheckDeps(s, fs, path, ctx);
    if changed.None? {
      return None;
    }
    if !changed.value {
      return Some(UnitRun(false, 0, fs, []));
    }
    var od := OutputDir(s.buildDir, p);
    var calls := [];
    if !DirExists(fs, od) {
      calls := RecMkdir(od);
    }
    var cmd := s.cc + " -c " + path + " -o " + ObjectFile(s.buildDir, p) + " ";
    cmd := AppendFlags(cmd, s.cFlags);
    r := Some(UnitRun(true, w.exitOf(cmd), AddDirs(fs, calls), Mkdirs(calls) + [Exec(cmd)]));
  }

  /** A stale unit's compile command runs last in its events, and its status is the unit's. */
  lemma {:induction false} StaleUnitCompiles(s: Settings, fs: Fs, w: World, path: string, lastBuild: int)
    requires Staleness(s, fs, path, lastBuild) == Some(true)
    ensures var u := Compile(s, fs, w, path, lastBuild).value;
            var cmd := CompileCommand(s, path, SplitPath(path));
            |u.events| > 0 && u.events[|u.events| - 1] == Exec(cmd) && u.ret == w.exitOf(cmd)
            && forall k :: 0 <= k < |u.events| - 1 ==> u.events[k].Mkdir?
  {
    var od := OutputDir(s.buildDir, SplitPath(path));
    MkdirsAt(if DirExists(fs, od) then [] else MkdirCalls(od));
  }

  /** compile_exe: the link command, and whether it exited with status 0. */
  method CompileExe(s: Settings, w: World) returns (ok: bool, cmd: string)
    ensures cmd == LinkCommand(s, Parts(s.cSrc))
    ensures ok <==> w.exitOf(cmd) == 0
  {
    cmd := s.cc + " -o " + s.buildDir + "/" + s.cExe + " ";
    cmd := AppendFlags(cmd, s.cFlags);
    ghost var head := cmd;
    assert head == LinkHead(s);
    ghost var ps := Parts(s.cSrc);
    for i := 0 to |s.cSrc|
      invariant cmd == head + ObjectList(s.buildDir, ps[..i])
    {
      var p := SplitPath(s.cSrc[i]);
      assert p == ps[i];
      ObjectListStep(head, s.buildDir, ps, i);
      cmd := cmd + ObjectFile(s.buildDir, p) + " ";
    }
    assert ps[..|s.cSrc|] == ps;
    ok := w.exitOf(cmd) == 0;
  }

  /**
   * main's compile loop over the units of srcs: `change` is overwritten by
   * every unit, the first failed compile of a stale unit stops the loop,
   * and an abort in check_deps ends the run.
   */
  function CompileAll(s: Settings, w: World, lastBuild: int, srcs: seq<string>, fs: Fs): (p: Pass)
    ensures p.fs.mtime == fs.mtime && p.fs.ledgers == fs.ledgers
    decreases |srcs|
  {
    if srcs == [] then Pass(false, fs, [], Running)
    else CompileStep(s, w, lastBuild, CompileAll(s, w, lastBuild, srcs[..|srcs| - 1], fs), srcs[|srcs| - 1])
  }

  /** One pass of the compile loop: a stopped loop stays as it is; otherwise the next unit is compiled. */
  function CompileStep(s: Settings, w: World, lastBuild: int, p: Pass, path: string): (q: Pass)
    ensures q.fs.mtime == p.fs.mtime && q.fs.ledgers == p.fs.ledgers
  {
    if p.status != Running then p
    else
      match Compile(s, p.fs, w, path, lastBuild)
      case None => Pass(p.change, p.fs, p.trace, PassAborted)
      case Some(u) =>
        Pass(u.changed, u.fs, p.trace + u.events, if u.changed && u.ret != 0 then Failed else Running)
  }

  /** The loop over the first i + 1 units is one more pass after the loop over the first i. */
  lemma {:induction false} CompileAllSnoc(s: Settings, w: World, lastBuild: int, srcs: seq<string>, fs: Fs, i: nat)
    requires i < |srcs|
    ensures CompileAll(s, w, lastBuild, srcs[..i + 1], fs) == CompileStep(s, w, lastBuild, CompileAll(s, w, lastBuild, srcs[..i], fs), srcs[i])
  {
    assert srcs[..i + 1][..i] == srcs[..i];
  }

  /** Once the loop has stopped, the later units change nothing: none of them is compiled. */
  lemma {:induction false} CompileAllStops(s: Settings, w: World, lastBuild: int, srcs: seq<string>, fs: Fs, k: nat, m: nat)
    requires k <= m <= |srcs|
    requires CompileAll(s, w, lastBuild, srcs[..k], fs).status != Running
    ensures CompileAll(s, w, lastBuild, srcs[..m], fs) == CompileAll(s, w, lastBuild, srcs[..k], fs)
  {
    var run := (j: nat) => CompileAll(s, w, lastBuild, if j <= |srcs| then srcs[..j] else srcs, fs);
    forall j | k < j <= m && run(j - 1).status != Running ensures run(j) == run(j - 1) {
      assert run(j - 1) == CompileAll(s, w, lastBuild, srcs[..j - 1], fs);
      SnocStopped(s, w, lastBuild, srcs, fs, j);
    }
    Stays(run, (p: Pass) => p.status != Running, k, m);
  }

  /** A loop that has stopped after the first k units ends there. */
  lemma {:induction false} CompileAllStopped(s: Settings, w: World, lastBuild: int, srcs: seq<string>, fs: Fs, k: nat)
    requires k <= |srcs| && CompileAll(s, w, lastBuild, srcs[..k], fs).status != Running
    ensures CompileAll(s, w, lastBuild, srcs, fs) == CompileAll(s, w, lastBuild, srcs[..k], fs)
  {
    CompileAllStops(s, w, lastBuild, srcs, fs, k, |srcs|);
    assert srcs[..|srcs|] == srcs;
  }

  /** A loop that had stopped after m - 1 units is left as it is by unit m - 1. */
  lemma {:induction false} SnocStopped(s: Settings, w: World, lastBuild: int, srcs: seq<string>, fs: Fs, m: nat)
    requires 0 < m <= |srcs|
    requires CompileAll(s, w, lastBuild, srcs[..m - 1], fs).status != Running
    ensures CompileAll(s, w, lastBuild, srcs[..m], fs) == CompileAll(s, w, lastBuild, srcs[..m - 1], fs)
  {
    CompileAllSnoc(s, w, lastBuild, srcs, fs, m - 1);
  }

  /**
   * A pass that leaves the loop running found the loop running and the
   * unit's check_deps not aborting; `change` becomes the unit's verdict,
   * and any compile it ran exited with 0.
   */
  lemma {:induction false} StepRunning(s: Settings, w: World, lastBuild: int, p: Pass, path: string, fs: Fs)
    requires p.fs.mtime == fs.mtime && p.fs.ledgers == fs.ledgers
    requires CompileStep(s, w, lastBuild, p, path).status == Running
    ensures p.status == Running && Staleness(s, fs, path, lastBuild).Some?
    ensures CompileStep(s, w, lastBuild, p, path).change == (Staleness(s, fs, path, lastBuild) == Some(true))
    ensures Staleness(s, fs, path, lastBuild) == Some(true) ==> w.exitOf(CompileCommand(s, path, SplitPath(path))) == 0
  {
    StalenessIgnoresDirs(s, fs, p.fs, path, lastBuild);
    if Staleness(s, fs, path, lastBuild) == Some(true) {
      StaleUnitCompiles(s, p.fs, w, path, lastBuild);
    }
  }

  /** A pass that stops a running loop with Failed compiled a stale unit, and the compile failed. */
  lemma {:induction false} StepFailed(s: Settings, w: World, lastBuild: int, p: Pass, path: string, fs: Fs)
    requires p.fs.mtime == fs.mtime && p.fs.ledgers == fs.ledgers
    requires p.status == Running && CompileStep(s, w, lastBuild, p, path).status == Failed
    ensures Staleness(s, fs, path, lastBuild) == Some(true) && w.exitOf(CompileCommand(s, path, SplitPath(path))) != 0
  {
    StalenessIgnoresDirs(s, fs, p.fs, path, lastBuild);
    StaleUnitCompiles(s, p.fs, w, path, lastBuild);
  }

  /** A pass that aborts a running loop met a check_deps that aborts. */
  lemma {:induction false} StepAborted(s: Settings, w: World, lastBuild: int, p: Pass, path: string, fs: Fs)
    requires p.fs.mtime == fs.mtime && p.fs.ledgers == fs.ledgers
    requires p.status == Running && CompileStep(s, w, lastBuild, p, path).status == PassAborted
    ensures Staleness(s, fs, path, lastBuild).None?
  {
    StalenessIgnoresDirs(s, fs, p.fs, path, lastBuild);
  }

  /** A pass adds no save to the trace. */
  lemma {:induction false} StepSavesNothing(s: Settings, w: World, lastBuild: int, p: Pass, path: string)
    requires LastSave(p.trace).None?
    ensures LastSave(CompileStep(s, w, lastBuild, p, path).trace).None?
  {
    if p.status == Running {
      var r := Compile(s, p.fs, w, path, lastBuild);
      if r.Some? {
        if r.value.changed { StaleUnitCompiles(s, p.fs, w, path, lastBuild); }
        LastSaveAppend(p.trace, r.value.events);
      }
    }
  }

  /** In a loop that ran to the end, AllOf(f, srcs) for f "check_deps does not abort". */
  lemma {:induction false} CompileAllNoAbort(s: Settings, w: World, lastBuild: int, srcs: seq<string>, fs: Fs, f: string -> bool)
    requires forall x :: f(x) == Staleness(s, fs, x, lastBuild).Some?
    requires CompileAll(s, w, lastBuild, srcs, fs).status == Running
    ensures AllOf(f, srcs)
    decreases |srcs|
  {
    if srcs != [] {
      var n := |srcs| - 1;
      var p := CompileAll(s, w, lastBuild, srcs[..n], fs);
      StepRunning(s, w, lastBuild, p, srcs[n], fs);
      CompileAllNoAbort(s, w, lastBuild, srcs[..n], fs, f);
    }
  }

  /**
   * A loop that ran to the end saw no abort, and `change` is the verdict
   * on the last unit alone.
   */
  lemma {:induction false} CompileAllChange(s: Settings, w: World, lastBuild: int, srcs: seq<string>, fs: Fs)
    requires CompileAll(s, w, lastBuild, srcs, fs).status == Running
    ensures forall i :: 0 <= i < |srcs| ==> Staleness(s, fs, srcs[i], lastBuild).Some?
    ensures CompileAll(s, w, lastBuild, srcs, fs).change <==>
              |srcs| > 0 && Staleness(s, fs, srcs[|srcs| - 1], lastBuild) == Some(true)
  {
    var f := x => Staleness(s, fs, x, lastBuild).Some?;
    CompileAllNoAbort(s, w, lastBuild, srcs, fs, f);
    AllOfMeaning(f, srcs);
    if srcs != [] {
      var n := |srcs| - 1;
      StepRunning(s, w, lastBuild, CompileAll(s, w, lastBuild, srcs[..n], fs), srcs[n], fs);
    }
  }

  /** In a loop that ran to the end, AllOf(f, srcs) for f "a stale unit's compile exits with 0". */
  lemma {:induction false} CompileAllAllSucceed(s: Settings, w: World, lastBuild: int, srcs: seq<string>, fs: Fs, f: string -> bool)
    requires forall x :: f(x) == (Staleness(s, fs, x, lastBuild) == Some(true) ==> w.exitOf(CompileCommand(s, x, SplitPath(x))) == 0)
    requires CompileAll(s, w, lastBuild, srcs, fs).status == Running
    ensures AllOf(f, srcs)
    decreases |srcs|
  {
    if srcs != [] {
      var n := |srcs| - 1;
      var p := CompileAll(s, w, lastBuild, srcs[..n], fs);
      StepRunning(s, w, lastBuild, p, srcs[n], fs);
      CompileAllAllSucceed(s, w, lastBuild, srcs[..n], fs, f);
    }
  }

  /** A loop that ran to the end compiled every stale unit with status 0. */
  lemma {:induction false} CompileAllSucceeded(s: Settings, w: World, lastBuild: int, srcs: seq<string>, fs: Fs, i: nat)
    requires CompileAll(s, w, lastBuild, srcs, fs).status == Running
    requires i < |srcs| && Staleness(s, fs, srcs[i], lastBuild) == Some(true)
    ensures w.exitOf(CompileCommand(s, srcs[i], SplitPath(srcs[i]))) == 0
  {
    var f := x => Staleness(s, fs, x, lastBuild) == Some(true) ==> w.exitOf(CompileCommand(s, x, SplitPath(x))) == 0;
    CompileAllAllSucceed(s, w, lastBuild, srcs, fs, f);
    AllOfMeaning(f, srcs);
    assert f(srcs[i]);
  }

  /** The unit whose failed compile stopped the loop, the loop having run through the units before it. */
  lemma {:induction false} FailedUnit(s: Settings, w: World, lastBuild: int, srcs: seq<string>, fs: Fs) returns (i: nat)
    requires CompileAll(s, w, lastBuild, srcs, fs).status == Failed
    ensures i < |srcs|
    ensures CompileAll(s, w, lastBuild, srcs[..i], fs).status == Running
    ensures Staleness(s, fs, srcs[i], lastBuild) == Some(true) && w.exitOf(CompileCommand(s, srcs[i], SplitPath(srcs[i]))) != 0
    ensures CompileAll(s, w, lastBuild, srcs, fs) == CompileAll(s, w, lastBuild, srcs[..i + 1], fs)
  {
    i := FirstStop(s, w, lastBuild, srcs, fs);
    CompileAllStopped(s, w, lastBuild, srcs, fs, i + 1);
    FailedAtEnd(s, w, lastBuild, srcs, fs, i);
  }

  /** A loop that stopped has a first unit after which it is no longer running. */
  lemma FirstStop(s: Settings, w: World, lastBuild: int, srcs: seq<string>, fs: Fs) returns (i: nat)
    requires CompileAll(s, w, lastBuild, srcs, fs).status != Running
    ensures i < |srcs|
    ensures CompileAll(s, w, lastBuild, srcs[..i], fs).status == Running
    ensures CompileAll(s, w, lastBuild, srcs[..i + 1], fs).status != Running
  {
    var going := (j: nat) => j <= |srcs| && CompileAll(s, w, lastBuild, srcs[..j], fs).status == Running;
    assert going(0) by { assert srcs[..0] == []; }
    assert !going(|srcs|) by { assert srcs[..|srcs|] == srcs; }
    i := FirstSwitch(going, |srcs|);
  }

  /** One step of the compile loop extends the run by a unit; once it stops, the run over all units ends there. */
  lemma LoopStep(s: Settings, w: World, lastBuild: int, srcs: seq<string>, fs: Fs, i: nat, p: Pass, q: Pass)
    requires i < |srcs| && p == CompileAll(s, w, lastBuild, srcs[..i], fs)
    requires q == CompileStep(s, w, lastBuild, p, srcs[i])
    ensures q == CompileAll(s, w, lastBuild, srcs[..i + 1], fs)
    ensures q.status != Running ==> CompileAll(s, w, lastBuild, srcs, fs) == q
  {
    CompileAllSnoc(s, w, lastBuild, srcs, fs, i);
    if q.status != Running {
      CompileAllStopped(s, w, lastBuild, srcs, fs, i + 1);
    }
  }

  /** A loop over the first i + 1 units that failed after running through the first i failed on unit i. */
  lemma {:induction false} FailedAtEnd(s: Settings, w: World, lastBuild: int, srcs: seq<string>, fs: Fs, i: nat)
    requires i < |srcs| && CompileAll(s, w, lastBuild, srcs[..i + 1], fs).status == Failed
    requires CompileAll(s, w, lastBuild, srcs[..i], fs).status == Running
    ensures Staleness(s, fs, srcs[i], lastBuild) == Some(true) && w.exitOf(CompileCommand(s, srcs[i], SplitPath(srcs[i]))) != 0
  {
    CompileAllSnoc(s, w, lastBuild, srcs, fs, i);
    StepFailed(s, w, lastBuild, CompileAll(s, w, lastBuild, srcs[..i], fs), srcs[i], fs);
  }

  /**
   * A failed compile of a stale unit: every earlier unit went through, and
   * no later unit is looked at.
   */
  lemma {:induction false} CompileAllFailed(s: Settings, w: World, lastBuild: int, srcs: seq<string>, fs: Fs)
    requires CompileAll(s, w, lastBuild, srcs, fs).status == Failed
    ensures exists i :: 0 <= i < |srcs|
              && CompileAll(s, w, lastBuild, srcs[..i], fs).status == Running
              && Staleness(s, fs, srcs[i], lastBuild) == Some(true)
              && w.exitOf(CompileCommand(s, srcs[i], SplitPath(srcs[i]))) != 0
              && CompileAll(s, w, lastBuild, srcs, fs) == CompileAll(s, w, lastBuild, srcs[..i + 1], fs)
  {
    var i := FailedUnit(s, w, lastBuild, srcs, fs);
  }

  /** The compile loop makes directories and runs compiles, and never saves the record. */
  lemma {:induction false} CompileAllSavesNothing(s: Settings, w: World, lastBuild: int, srcs: seq<string>, fs: Fs)
    ensures LastSave(CompileAll(s, w, lastBuild, srcs, fs).trace).None?
    decreases |srcs|
  {
    if srcs != [] {
      var n := |srcs| - 1;
      CompileAllSavesNothing(s, w, lastBuild, srcs[..n], fs);
      StepSavesNothing(s, w, lastBuild, CompileAll(s, w, lastBuild, srcs[..n], fs), srcs[n]);
    }
  }

  // ---------------------------------------------------------------------
  // main

  /** The command that rebuilds the tool itself with cc, with the mode's define. */
  function SelfBuildCommand(s: Settings, mode: Mode): string {
    s.cc + " " + s.buildC + " -o " + s.buildExe
    + (match mode
       case ModeDev => " -DDEBUG"
       case ModeRel => " -DRELEASE"
       case ModeNone => "")
  }

  /** `if (last_mode != mode || clean)`: save the record unchanged, then remove build_dir if it is there. */
  function Reset(s: Settings, st: St<Record>): St<Record> {
    var t := st.trace + [Save(st.ctx)];
    if DirExists(st.fs, s.buildDir) then St(st.ctx, RemoveTree(st.fs, s.buildDir), NoRecord, t + [RemoveDir(s.buildDir)])
    else St(st.ctx, st.fs, st.rec, t)
  }

  /** `if (stat(build_dir) == -1) rec_mkdir(build_dir)`. */
  function EnsureBuildDir(s: Settings, st: St<Record>): St<Record> {
    if DirExists(st.fs, s.buildDir) then st
    else
      var calls := MkdirCalls(s.buildDir);
      st.(fs := AddDirs(st.fs, calls), trace := st.trace + Mkdirs(calls))
  }

  /** Reset saves the context it holds and removes directories; it runs no command. */
  lemma {:induction false} ResetQuiet(s: Settings, st: St<Record>)
    requires Quiet(st.trace, st.ctx)
    ensures Reset(s, st).ctx == st.ctx && Quiet(Reset(s, st).trace, st.ctx)
  {
    QuietAppend(st.trace, [Save(st.ctx)], st.ctx);
    QuietAppend(st.trace + [Save(st.ctx)], [RemoveDir(s.buildDir)], st.ctx);
  }

  /** EnsureBuildDir only makes directories. */
  lemma {:induction false} EnsureBuildDirQuiet(s: Settings, st: St<Record>, ctx: BuildContext)
    requires Quiet(st.trace, ctx)
    ensures EnsureBuildDir(s, st).ctx == st.ctx && EnsureBuildDir(s, st).rec == st.rec
    ensures Quiet(EnsureBuildDir(s, st).trace, ctx)
  {
    if !DirExists(st.fs, s.buildDir) {
      var calls := MkdirCalls(s.buildDir);
      MkdirsQuiet(calls, ctx);
      QuietAppend(st.trace, Mkdirs(calls), ctx);
    }
  }

  /** main from get_build to the lock: the state handed on once the lock is taken. */
  function Prepare(s: Settings, conf: Config, fs: Fs, rec: Record): Step<Record> {
    match Load(s, fs, rec)
    case LoadAborted => Stop(Outcome(Aborted, [], fs, rec))
    case Loaded(ctx, rec1) =>
      var st0 := St(ctx, fs, rec1, []);
      var st1 := if ctx.lastMode != conf.mode || conf.clean then Reset(s, st0) else st0;
      var st2 := EnsureBuildDir(s, st1);
      if ctx.lock then Stop(Outcome(Returned(1), st2.trace, st2.fs, st2.rec))
      else
        var locked := ctx.(lock := true);
        Next(St(locked, st2.fs, SavedRecord(s, st2.fs, st2.rec, locked), st2.trace + [Save(locked)]))
  }

  /** The self-rebuild trigger, once build.c could be stat'ed. */
  predicate SelfRebuildDue(s: Settings, conf: Config, st: St<Record>)
    requires s.buildC in st.fs.mtime
  {
    st.ctx.lastModif < st.fs.mtime[s.buildC] || st.ctx.lastMode != conf.mode || conf.buildOnly
  }

  /**
   * The stat assert on build.c, then the self-rebuild: set last_mode,
   * compile build.c; on failure return its status, lock still held; on
   * success record the time, release the lock, save, and either return 0
   * (build-only) or the status of the re-run tool.
   */
  function SelfRebuild(s: Settings, argv: seq<string>, conf: Config, st: St<Record>, w: World): Step<Record> {
    if s.buildC !in st.fs.mtime then Stop(Outcome(Aborted, st.trace, st.fs, st.rec))
    else if !SelfRebuildDue(s, conf, st) then Next(st)
    else
      var cmd := SelfBuildCommand(s, conf.mode);
      var t := st.trace + [Exec(cmd)];
      if w.exitOf(cmd) != 0 then Stop(Outcome(Returned(w.exitOf(cmd)), t, st.fs, st.rec))
      else
        var ctx := st.ctx.(lastMode := conf.mode, lastModif := w.now, lastBuild := w.now, lock := false);
        var rec := SavedRecord(s, st.fs, st.rec, ctx);
        if conf.buildOnly then Stop(Outcome(Returned(0), t + [Save(ctx)], st.fs, rec))
        else
          var rerun := RerunCommand(s.buildExe, argv);
          Stop(Outcome(Returned(w.exitOf(rerun)), t + [Save(ctx), Exec(rerun)], st.fs, rec))
  }

  /** After the link (whatever its status) or none: record the build time, release the lock, save, then the hooks and the run. */
  function Finish(s: Settings, argv: seq<string>, conf: Config, ctx: BuildContext, fs: Fs, rec: Record, trace: seq<Event>, w: World): Outcome<Record> {
    var done := ctx.(lastBuild := w.now, lock := false);
    var t := trace + [Save(done)] + Execs(s.postBuild) + Execs(s.preRun);
    var rec' := SavedRecord(s, fs, rec, done);
    if conf.run then
      var runCmd := RunCommand(s, argv, conf.runArgc);
      Outcome(Returned(w.exitOf(runCmd)), t + [Exec(runCmd)] + Execs(s.postRun), fs, rec')
    else Outcome(Returned(0), t + Execs(s.postRun), fs, rec')
  }

  /** The target build: pre_build hooks, the compile loop, the link when the last unit was stale, then Finish. */
  function Build(s: Settings, argv: seq<string>, conf: Config, st: St<Record>, w: World): Outcome<Record> {
    AfterCompile(s, argv, conf, st, CompileAll(s, w, st.ctx.lastBuild, s.cSrc, st.fs), w)
  }

  /** The rest of the target build once the compile loop has ended as p: the link, then Finish, or the exit on failure. */
  function AfterCompile(s: Settings, argv: seq<string>, conf: Config, st: St<Record>, p: Pass, w: World): Outcome<Record> {
    var t := st.trace + Execs(s.preBuild) + p.trace;
    var released := st.ctx.(lock := false);
    if p.status == PassAborted then Outcome(Aborted, t, p.fs, st.rec)
    else if p.status == Failed then Outcome(Returned(2), t + [Save(released)], p.fs, SavedRecord(s, p.fs, st.rec, released))
    else if !p.change then Finish(s, argv, conf, st.ctx, p.fs, st.rec, t, w)
    else Finish(s, argv, conf, st.ctx, p.fs, st.rec, t + [Exec(LinkCommand(s, Parts(s.cSrc)))], w)
  }

  /** A whole run of main. */
  function Run(s: Settings, argv: seq<string>, fs: Fs, rec: Record, w: World): Outcome<Record> {
    match Parse(argv)
    case ShowHelp => Outcome(Returned(0), [], fs, rec)
    case UnknownCommand(_) => Outcome(Returned(1), [], fs, rec)
    case Proceed(conf) =>
      match Prepare(s, conf, fs, rec)
      case Stop(out) => out
      case Next(st) =>
        match SelfRebuild(s, argv, conf, st, w)
        case Stop(out) => out
        case Next(st') => Build(s, argv, conf, st', w)
  }

  // ---------------------------------------------------------------------
  // main, step by step

  /** main from get_build to the lock check, on mutable locals. */
  method PrepareRun(s: Settings, conf: Config, fs0: Fs, rec0: Record) returns (r: Step<Record>)
    ensures r == Prepare(s, conf, fs0, rec0)
  {
    var fs, trace := fs0, [];
    var loaded := GetBuild(s, fs, rec0);
    if loaded.LoadAborted? {
      return Stop(Outcome(Aborted, [], fs, rec0));
    }
    var ctx, rec := loaded.ctx, loaded.rec;
    if ctx.lastMode != conf.mode || conf.clean {
      trace := trace + [Save(ctx)];
      rec := SetBuild(s, fs, rec, ctx);
      if DirExists(fs, s.buildDir) {
        trace := trace + [RemoveDir(s.buildDir)];
        fs := RemoveTree(fs, s.buildDir);
        rec := NoRecord;
      }
    }
    if !DirExists(fs, s.buildDir) {
      var calls := RecMkdir(s.buildDir);
      trace := trace + Mkdirs(calls);
      fs := AddDirs(fs, calls);
    }
    if ctx.lock {
      return Stop(Outcome(Returned(1), trace, fs, rec));
    }
    ctx := ctx.(lock := true);
    trace := trace + [Save(ctx)];
    rec := SetBuild(s, fs, rec, ctx);
    r := Next(St(ctx, fs, rec, trace));
  }

  /** The build.c stat and the self-rebuild block of main. */
  method RebuildSelf(s: Settings, argv: seq<string>, conf: Config, st: St<Record>, w: World) returns (r: Step<Record>)
    ensures r == SelfRebuild(s, argv, conf, st, w)
  {
    if s.buildC !in st.fs.mtime {
      return Stop(Outcome(Aborted, st.trace, st.fs, st.rec));
    }
    var ctx, trace := st.ctx, st.trace;
    if !(ctx.lastModif < st.fs.mtime[s.buildC] || ctx.lastMode != conf.mode || conf.buildOnly) {
      return Next(st);
    }
    ctx := ctx.(lastMode := conf.mode);
    var cmd := SelfBuildCommand(s, conf.mode);
    trace := trace + [Exec(cmd)];
    var ret := w.exitOf(cmd);
    if ret != 0 {
      return Stop(Outcome(Returned(ret), trace, st.fs, st.rec));
    }
    ctx := ctx.(lastModif := w.now, lastBuild := w.now, lock := false);
    trace := trace + [Save(ctx)];
    var rec := SetBuild(s, st.fs, st.rec, ctx);
    if !conf.buildOnly {
      var rerun := BuildRerunCommand(s.buildExe, argv);
      trace := trace + [Exec(rerun)];
      return Stop(Outcome(Returned(w.exitOf(rerun)), trace, st.fs, rec));
    }
    r := Stop(Outcome(Returned(0), trace, st.fs, rec));
  }

  /** One pass of main's compile loop on a running loop: compile_file, then the checks of its outcome. */
  method CompilePass(s: Settings, w: World, ctx: BuildContext, p: Pass, path: string) returns (q: Pass)
    requires p.status == Running
    ensures q == CompileStep(s, w, ctx.lastBuild, p, path)
  {
    var r := CompileFile(s, p.fs, w, path, ctx);
    if r.None? {
      return Pass(p.change, p.fs, p.trace, PassAborted);
    }
    var u := r.value;
    if u.changed && u.ret != 0 {
      return Pass(u.changed, u.fs, p.trace + u.events, Failed);
    }
    q := Pass(u.changed, u.fs, p.trace + u.events, Running);
  }

  /** main's compile loop: each unit in turn, until check_deps aborts or a compile fails. */
  method CompileUnits(s: Settings, w: World, ctx: BuildContext, fs0: Fs) returns (p: Pass)
    ensures p == CompileAll(s, w, ctx.lastBuild, s.cSrc, fs0)
  {
    p := Pass(false, fs0, [], Running);
    var i := 0;
    while i < |s.cSrc|
      invariant 0 <= i <= |s.cSrc|
      invariant p == CompileAll(s, w, ctx.lastBuild, s.cSrc[..i], fs0) && p.status == Running
    {
      var q := CompilePass(s, w, ctx, p, s.cSrc[i]);
      LoopStep(s, w, ctx.lastBuild, s.cSrc, fs0, i, p, q);
      if q.status != Running {
        return q;
      }
      p := q;
      i := i + 1;
    }
    assert s.cSrc[..|s.cSrc|] == s.cSrc;
  }

  /** main from the pre_build hooks to its return. */
  method BuildTarget(s: Settings, argv: seq<string>, conf: Config, st: St<Record>, w: World) returns (out: Outcome<Record>)
    ensures out == Build(s, argv, conf, st, w)
  {
    var ctx := st.ctx;
    var trace := RunHooks(s.preBuild, st.trace);
    var p := CompileUnits(s, w, ctx, st.fs);
    trace := trace + p.trace;
    if p.status == PassAborted {
      return Outcome(Aborted, trace, p.fs, st.rec);
    }
    if p.status == Failed {
      ctx := ctx.(lock := false);
      trace := trace + [Save(ctx)];
      var rec := SetBuild(s, p.fs, st.rec, ctx);
      return Outcome(Returned(2), trace, p.fs, rec);
    }
    if p.change {
      var ok, link := CompileExe(s, w);
      trace := trace + [Exec(link)];
    }
    out := FinishRun(s, argv, conf, ctx, p.fs, st.rec, trace, w);
  }

  /** main's last save, hooks and run. */
  method FinishRun(s: Settings, argv: seq<string>, conf: Config, ctx0: BuildContext, fs: Fs, rec0: Record, trace0: seq<Event>, w: World)
    returns (out: Outcome<Record>)
    ensures out == Finish(s, argv, conf, ctx0, fs, rec0, trace0, w)
  {
    var ctx := ctx0.(lastBuild := w.now, lock := false);
    var trace := trace0 + [Save(ctx)];
    var rec := SetBuild(s, fs, rec0, ctx);
    trace := RunHooks(s.postBuild, trace);
    trace := RunHooks(s.preRun, trace);
    var ret := 0;
    if conf.run {
      var runCmd := BuildRunCommand(s, argv, conf.runArgc);
      trace := trace + [Exec(runCmd)];
      ret := w.exitOf(runCmd);
    }
    trace := RunHooks(s.postRun, trace);
    out := Outcome(Returned(ret), trace, fs, rec);
  }

  /** main: parse the arguments, then the three stages. */
  method RunBuild(s: Settings, argv: seq<string>, fs: Fs, rec: Record, w: World) returns (out: Outcome<Record>)
    ensures out == Run(s, argv, fs, rec, w)
  {
    var parsed := ParseArgs(argv);
    if parsed.ShowHelp? {
      return Outcome(Returned(0), [], fs, rec);
    } else if parsed.UnknownCommand? {
      return Outcome(Returned(1), [], fs, rec);
    }
    var conf := parsed.conf;
    var step := PrepareRun(s, conf, fs, rec);
    if step.Stop? {
      return step.out;
    }
    step := RebuildSelf(s, argv, conf, step.st, w);
    if step.Stop? {
      return step.out;
    }
    out := BuildTarget(s, argv, conf, step.st, w);
  }

  // ---------------------------------------------------------------------
  // Properties of a run

  /** "help" returns 0 and an unknown word returns 1, before anything is read or written. */
  lemma {:induction false} ParseExits(s: Settings, argv: seq<string>, fs: Fs, rec: Record, w: World)
    ensures Parse(argv).ShowHelp? ==> Run(s, argv, fs, rec, w) == Outcome(Returned(0), [], fs, rec)
    ensures Parse(argv).UnknownCommand? ==> Run(s, argv, fs, rec, w) == Outcome(Returned(1), [], fs, rec)
  {
  }

  /** A record that does not hold the four values aborts the run before anything is written. */
  lemma {:induction false} UnreadableRecordAborts(s: Settings, argv: seq<string>, fs: Fs, cells: seq<Cell>, w: World)
    requires Parse(argv).Proceed? && Decode(cells).None?
    ensures Run(s, argv, fs, Stored(cells), w) == Outcome(Aborted, [], fs, Stored(cells))
  {
  }

  /**
   * A held lock: main returns 1. Up to then it only saved the context it
   * read (when the mode changed or clean was asked), removed and created
   * directories, and ran no command.
   */
  lemma {:induction false} LockHeldStops(s: Settings, argv: seq<string>, fs: Fs, rec: Record, w: World)
    requires Parse(argv).Proceed?
    requires Load(s, fs, rec).Loaded? && Load(s, fs, rec).ctx.lock
    ensures var out := Run(s, argv, fs, rec, w);
            out.exit == Returned(1)
            && (forall k :: 0 <= k < |out.trace| ==> !out.trace[k].Exec?)
            && (forall k :: 0 <= k < |out.trace| && out.trace[k].Save? ==> out.trace[k].ctx == Load(s, fs, rec).ctx)
  {
    var conf := Parse(argv).conf;
    var l := Load(s, fs, rec);
    var st0 := St(l.ctx, fs, l.rec, []);
    var st1 := if l.ctx.lastMode != conf.mode || conf.clean then Reset(s, st0) else st0;
    if l.ctx.lastMode != conf.mode || conf.clean { ResetQuiet(s, st0); }
    var st2 := EnsureBuildDir(s, st1);
    EnsureBuildDirQuiet(s, st1, l.ctx);
    assert Prepare(s, conf, fs, rec) == Stop(Outcome(Returned(1), st2.trace, st2.fs, st2.rec));
  }

  /**
   * The state Prepare hands on holds the lock, saving it was the last
   * thing done, and while build_dir exists the record file holds it.
   */
  lemma {:induction false} PrepareLocks(s: Settings, conf: Config, fs: Fs, rec: Record)
    requires Prepare(s, conf, fs, rec).Next?
    ensures var st := Prepare(s, conf, fs, rec).st;
            st.ctx == Load(s, fs, rec).ctx.(lock := true)
            && |st.trace| > 0 && st.trace[|st.trace| - 1] == Save(st.ctx)
            && (forall k :: 0 <= k < |st.trace| ==> !st.trace[k].Exec?)
            && (DirExists(st.fs, s.buildDir) ==> st.rec == Stored(Encode(st.ctx)))
  {
    var l := Load(s, fs, rec);
    var st0 := St(l.ctx, fs, l.rec, []);
    var st1 := if l.ctx.lastMode != conf.mode || conf.clean then Reset(s, st0) else st0;
    if l.ctx.lastMode != conf.mode || conf.clean { ResetQuiet(s, st0); }
    var st2 := EnsureBuildDir(s, st1);
    EnsureBuildDirQuiet(s, st1, l.ctx);
    var locked := l.ctx.(lock := true);
    assert Prepare(s, conf, fs, rec).st.trace == st2.trace + [Save(locked)];
  }

  /** SelfRebuild hands on the state it was given, or ends the run after the actions it was handed. */
  lemma {:induction false} SelfRebuildExtendsTrace(s: Settings, argv: seq<string>, conf: Config, st: St<Record>, w: World)
    ensures var r := SelfRebuild(s, argv, conf, st, w);
            (r.Next? ==> r.st == st) && (r.Stop? ==> st.trace <= r.out.trace)
  {
  }

  /** Build only adds actions after the ones it was handed. */
  lemma {:induction false} BuildExtendsTrace(s: Settings, argv: seq<string>, conf: Config, st: St<Record>, w: World)
    ensures st.trace <= Build(s, argv, conf, st, w).trace
  {
    AfterCompileExtendsTrace(s, argv, conf, st, CompileAll(s, w, st.ctx.lastBuild, s.cSrc, st.fs), w);
  }

  lemma {:induction false} AfterCompileExtendsTrace(s: Settings, argv: seq<string>, conf: Config, st: St<Record>, p: Pass, w: World)
    ensures st.trace <= AfterCompile(s, argv, conf, st, p, w).trace
  {
    var t := st.trace + Execs(s.preBuild) + p.trace;
    assert st.trace <= t;
    var link := LinkCommand(s, Parts(s.cSrc));
    FinishExtendsTrace(s, argv, conf, st.ctx, p.fs, st.rec, t, w);
    FinishExtendsTrace(s, argv, conf, st.ctx, p.fs, st.rec, t + [Exec(link)], w);
  }

  lemma {:induction false} FinishExtendsTrace(s: Settings, argv: seq<string>, conf: Config, ctx: BuildContext, fs: Fs, rec: Record, trace: seq<Event>, w: World)
    ensures trace <= Finish(s, argv, conf, ctx, fs, rec, trace, w).trace
  {
  }

  /**
   * An unlocked run saves the context with lock = true before it executes
   * any command: before the self-rebuild, the hooks, the compiles and the link.
   */
  lemma {:induction false} LockTakenFirst(s: Settings, argv: seq<string>, fs: Fs, rec: Record, w: World)
    requires Parse(argv).Proceed?
    requires Load(s, fs, rec).Loaded? && !Load(s, fs, rec).ctx.lock
    ensures var t := Run(s, argv, fs, rec, w).trace;
            exists k :: 0 <= k < |t| && t[k] == Save(Load(s, fs, rec).ctx.(lock := true))
                        && forall j :: 0 <= j < k ==> !t[j].Exec?
  {
    var conf := Parse(argv).conf;
    var st := Prepare(s, conf, fs, rec).st;
    PrepareLocks(s, conf, fs, rec);
    var r := SelfRebuild(s, argv, conf, st, w);
    SelfRebuildExtendsTrace(s, argv, conf, st, w);
    BuildExtendsTrace(s, argv, conf, st, w);
    var t := if r.Stop? then r.out.trace else Build(s, argv, conf, st, w).trace;
    assert Run(s, argv, fs, rec, w).trace == t;
    var k := |st.trace| - 1;
    assert st.trace <= t;
    assert t[k] == st.trace[k];
    forall j | 0 <= j < k ensures !t[j].Exec? {
      assert t[j] == st.trace[j];
    }
  }

  /** The last context a locked state saved is its own. */
  lemma {:induction false} LockedLastSave(s: Settings, conf: Config, fs: Fs, rec: Record, more: seq<Event>)
    requires Prepare(s, conf, fs, rec).Next?
    requires LastSave(more).None?
    ensures var st := Prepare(s, conf, fs, rec).st;
            LastSave(st.trace + more) == Some(st.ctx) && st.ctx.lock
  {
    var st := Prepare(s, conf, fs, rec).st;
    PrepareLocks(s, conf, fs, rec);
    LastSaveAppend(st.trace, more);
    assert st.trace == st.trace[..|st.trace| - 1] + [Save(st.ctx)];
    LastSaveAppend(st.trace[..|st.trace| - 1], [Save(st.ctx)]);
  }

  /**
   * A missing build.c fails its stat assert after the lock was taken: the
   * run aborts with the lock held, and while build_dir exists the next
   * run reads a held lock (and so returns 1).
   */
  lemma {:induction false} MissingBuildFileKeepsLock(s: Settings, argv: seq<string>, fs: Fs, rec: Record, w: World)
    requires Parse(argv).Proceed? && Prepare(s, Parse(argv).conf, fs, rec).Next?
    requires s.buildC !in Prepare(s, Parse(argv).conf, fs, rec).st.fs.mtime
    ensures var st := Prepare(s, Parse(argv).conf, fs, rec).st;
            var out := Run(s, argv, fs, rec, w);
            out.exit == Aborted && LastSave(out.trace) == Some(st.ctx) && st.ctx.lock
            && (DirExists(out.fs, s.buildDir) ==> Load(s, out.fs, out.rec) == Loaded(st.ctx, out.rec))
  {
    var conf := Parse(argv).conf;
    var st := Prepare(s, conf, fs, rec).st;
    LockedLastSave(s, conf, fs, rec, []);
    assert st.trace + [] == st.trace;
    PrepareLocks(s, conf, fs, rec);
    DecodeEncode(st.ctx);
  }

  /**
   * A failed self-rebuild returns the compiler's status and leaves the
   * lock held: the last context saved is the locked one.
   */
  lemma {:induction false} SelfRebuildFailureKeepsLock(s: Settings, argv: seq<string>, fs: Fs, rec: Record, w: World)
    requires Parse(argv).Proceed? && Prepare(s, Parse(argv).conf, fs, rec).Next?
    requires var conf, st := Parse(argv).conf, Prepare(s, Parse(argv).conf, fs, rec).st;
             s.buildC in st.fs.mtime && SelfRebuildDue(s, conf, st) && w.exitOf(SelfBuildCommand(s, conf.mode)) != 0
    ensures var conf, st := Parse(argv).conf, Prepare(s, Parse(argv).conf, fs, rec).st;
            var out := Run(s, argv, fs, rec, w);
            out.exit == Returned(w.exitOf(SelfBuildCommand(s, conf.mode)))
            && LastSave(out.trace) == Some(st.ctx) && st.ctx.lock
            && out.rec == st.rec
  {
    var conf := Parse(argv).conf;
    LockedLastSave(s, conf, fs, rec, [Exec(SelfBuildCommand(s, conf.mode))]);
  }

  /** A self-build that exits with 0 ends the run: the mode and the time recorded, the lock released, then 0 or the re-run. */
  lemma {:induction false} SelfRebuildRecords(s: Settings, argv: seq<string>, conf: Config, st: St<Record>, w: World)
    requires s.buildC in st.fs.mtime && SelfRebuildDue(s, conf, st) && w.exitOf(SelfBuildCommand(s, conf.mode)) == 0
    ensures SelfRebuild(s, argv, conf, st, w).Stop?
    ensures var out := SelfRebuild(s, argv, conf, st, w).out;
            var rerun := RerunCommand(s.buildExe, argv);
            LastSave(out.trace) == Some(st.ctx.(lastMode := conf.mode, lastModif := w.now, lastBuild := w.now, lock := false))
            && out.exit == Returned(if conf.buildOnly then 0 else w.exitOf(rerun))
            && out.trace[|st.trace|] == Exec(SelfBuildCommand(s, conf.mode))
            && (conf.buildOnly ==> |out.trace| == |st.trace| + 2)
            && (!conf.buildOnly ==> |out.trace| == |st.trace| + 3 && out.trace[|out.trace| - 1] == Exec(rerun))
  {
    var ctx := st.ctx.(lastMode := conf.mode, lastModif := w.now, lastBuild := w.now, lock := false);
    var cmd := SelfBuildCommand(s, conf.mode);
    var rerun := RerunCommand(s.buildExe, argv);
    LastSaveAppend(st.trace + [Exec(cmd)], [Save(ctx)]);
    LastSaveAppend(st.trace + [Exec(cmd)], [Save(ctx), Exec(rerun)]);
  }

  /**
   * A successful self-rebuild records the new mode and the time as both
   * last_modif and last_build, releases the lock, and then returns 0
   * (build-only) or the status of build_exe re-run without "clean".
   */
  lemma {:induction false} SelfRebuildSuccess(s: Settings, argv: seq<string>, fs: Fs, rec: Record, w: World)
    requires Parse(argv).Proceed? && Prepare(s, Parse(argv).conf, fs, rec).Next?
    requires var conf, st := Parse(argv).conf, Prepare(s, Parse(argv).conf, fs, rec).st;
             s.buildC in st.fs.mtime && SelfRebuildDue(s, conf, st) && w.exitOf(SelfBuildCommand(s, conf.mode)) == 0
    ensures var conf, st := Parse(argv).conf, Prepare(s, Parse(argv).conf, fs, rec).st;
            var out := Run(s, argv, fs, rec, w);
            var rerun := RerunCommand(s.buildExe, argv);
            LastSave(out.trace) == Some(st.ctx.(lastMode := conf.mode, lastModif := w.now, lastBuild := w.now, lock := false))
            && out.exit == Returned(if conf.buildOnly then 0 else w.exitOf(rerun))
            && out.trace[|st.trace|] == Exec(SelfBuildCommand(s, conf.mode))
            && (conf.buildOnly ==> |out.trace| == |st.trace| + 2)
            && (!conf.buildOnly ==> |out.trace| == |st.trace| + 3 && out.trace[|out.trace| - 1] == Exec(rerun))
  {
    var conf, st := Parse(argv).conf, Prepare(s, Parse(argv).conf, fs, rec).st;
    SelfRebuildRecords(s, argv, conf, st, w);
  }

  /** Without the trigger, main goes straight on to the target build with the locked state. */
  lemma {:induction false} NoSelfRebuild(s: Settings, argv: seq<string>, fs: Fs, rec: Record, w: World)
    requires Parse(argv).Proceed? && Prepare(s, Parse(argv).conf, fs, rec).Next?
    requires var st := Prepare(s, Parse(argv).conf, fs, rec).st;
             s.buildC in st.fs.mtime && !SelfRebuildDue(s, Parse(argv).conf, st)
    ensures Run(s, argv, fs, rec, w) == Build(s, argv, Parse(argv).conf, Prepare(s, Parse(argv).conf, fs, rec).st, w)
  {
  }

  /** The unit whose check_deps aborted the loop, the loop having run through the units before it. */
  lemma {:induction false} AbortedUnit(s: Settings, w: World, lastBuild: int, srcs: seq<string>, fs: Fs) returns (i: nat)
    requires CompileAll(s, w, lastBuild, srcs, fs).status == PassAborted
    ensures i < |srcs|
    ensures CompileAll(s, w, lastBuild, srcs[..i], fs).status == Running
    ensures Staleness(s, fs, srcs[i], lastBuild).None?
    decreases |srcs|
  {
    var n := |srcs| - 1;
    var init := srcs[..n];
    var p := CompileAll(s, w, lastBuild, init, fs);
    if p.status == Running {
      StepAborted(s, w, lastBuild, p, srcs[n], fs);
      i := n;
    } else {
      i := AbortedUnit(s, w, lastBuild, init, fs);
      assert init[..i] == srcs[..i] && init[i] == srcs[i];
    }
  }

  /** An aborted compile loop: the unit whose check_deps aborted, every earlier unit having gone through. */
  lemma {:induction false} CompileAllAborted(s: Settings, w: World, lastBuild: int, srcs: seq<string>, fs: Fs)
    requires CompileAll(s, w, lastBuild, srcs, fs).status == PassAborted
    ensures exists i :: 0 <= i < |srcs|
              && CompileAll(s, w, lastBuild, srcs[..i], fs).status == Running
              && Staleness(s, fs, srcs[i], lastBuild).None?
  {
    var i := AbortedUnit(s, w, lastBuild, srcs, fs);
  }

  /**
   * A missing source or dependency aborts the target build: nothing is
   * saved after the lock was taken, so the lock stays held.
   */
  lemma {:induction false} DependencyAbortKeepsLock(s: Settings, argv: seq<string>, conf: Config, st: St<Record>, w: World)
    requires CompileAll(s, w, st.ctx.lastBuild, s.cSrc, st.fs).status == PassAborted
    ensures var out := Build(s, argv, conf, st, w);
            out.exit == Aborted && out.rec == st.rec && LastSave(out.trace) == LastSave(st.trace)
  {
    var p := CompileAll(s, w, st.ctx.lastBuild, s.cSrc, st.fs);
    CompileAllSavesNothing(s, w, st.ctx.lastBuild, s.cSrc, st.fs);
    LastSaveAppend(st.trace + Execs(s.preBuild), p.trace);
    LastSaveAppend(st.trace, Execs(s.preBuild));
  }

  /**
   * A failed compile ends the run with 2 right after releasing the lock:
   * the last event saves the context with lock = false, and no link or
   * hook follows.
   */
  lemma {:induction false} CompileFailureReleasesLock(s: Settings, argv: seq<string>, conf: Config, st: St<Record>, w: World)
    requires CompileAll(s, w, st.ctx.lastBuild, s.cSrc, st.fs).status == Failed
    ensures var out := Build(s, argv, conf, st, w);
            var p := CompileAll(s, w, st.ctx.lastBuild, s.cSrc, st.fs);
            out.exit == Returned(2)
            && out.trace == st.trace + Execs(s.preBuild) + p.trace + [Save(st.ctx.(lock := false))]
            && LastSave(out.trace) == Some(st.ctx.(lock := false))
  {
  }

  /**
   * Linking depends on the last unit alone: the event right after the
   * compile loop is the link command exactly when the last source was
   * stale, whatever the earlier ones were.
   */
  lemma {:induction false} LinkIffLastUnitStale(s: Settings, argv: seq<string>, conf: Config, st: St<Record>, w: World, p: Pass, out: Outcome<Record>)
    requires p == CompileAll(s, w, st.ctx.lastBuild, s.cSrc, st.fs) && p.status == Running
    requires out == Build(s, argv, conf, st, w)
    ensures var n := |st.trace| + |s.preBuild| + |p.trace|;
            n < |out.trace|
            && (out.trace[n] == Exec(LinkCommand(s, Parts(s.cSrc))) <==>
                  |s.cSrc| > 0 && Staleness(s, st.fs, s.cSrc[|s.cSrc| - 1], st.ctx.lastBuild) == Some(true))
  {
    CompileAllChange(s, w, st.ctx.lastBuild, s.cSrc, st.fs);
    AfterCompileLinks(s, argv, conf, st, p, w, out, p.change);
  }

  /** After a compile loop that got through, the next event is the link exactly when the loop saw a change. */
  lemma {:induction false} AfterCompileLinks(s: Settings, argv: seq<string>, conf: Config, st: St<Record>, p: Pass, w: World, out: Outcome<Record>, change: bool)
    requires p.status == Running && out == AfterCompile(s, argv, conf, st, p, w) && p.change == change
    ensures var n := |st.trace| + |s.preBuild| + |p.trace|;
            n < |out.trace| && (out.trace[n] == Exec(LinkCommand(s, Parts(s.cSrc))) <==> change)
  {
    var t := st.trace + Execs(s.preBuild) + p.trace;
    var n := |t|;
    var link := LinkCommand(s, Parts(s.cSrc));
    if p.change {
      FinishExtendsTrace(s, argv, conf, st.ctx, p.fs, st.rec, t + [Exec(link)], w);
    } else {
      var done := st.ctx.(lastBuild := w.now, lock := false);
      FinishExtendsTrace(s, argv, conf, st.ctx, p.fs, st.rec, t, w);
      assert Finish(s, argv, conf, st.ctx, p.fs, st.rec, t, w).trace[n] == Save(done);
    }
  }

  /**
   * A compile loop that went through finishes the run whatever the link
   * did: the time becomes last_build, the lock is released, pre_run and
   * post_run run, and main returns the target's status when run with "--"
   * (0 otherwise).
   */
  lemma {:induction false} BuildFinishes(s: Settings, argv: seq<string>, conf: Config, st: St<Record>, w: World)
    requires CompileAll(s, w, st.ctx.lastBuild, s.cSrc, st.fs).status == Running
    ensures var out := Build(s, argv, conf, st, w);
            var runCmd := RunCommand(s, argv, conf.runArgc);
            var done := st.ctx.(lastBuild := w.now, lock := false);
            LastSave(out.trace) == Some(done)
            && out.exit == Returned(if conf.run then w.exitOf(runCmd) else 0)
            && |out.trace| >= |s.postRun| && out.trace[|out.trace| - |s.postRun|..] == Execs(s.postRun)
            && (DirExists(out.fs, s.buildDir) ==> out.rec == Stored(Encode(done)))
  {
    var p := CompileAll(s, w, st.ctx.lastBuild, s.cSrc, st.fs);
    AfterCompileIsFinish(s, argv, conf, st, p, w);
    FinishRecordsBuild(s, argv, conf, st.ctx, p.fs, st.rec, BuildTrace(s, st, p), w);
  }

  /** The trace up to Finish of a build whose compile loop ended as p. */
  function BuildTrace(s: Settings, st: St<Record>, p: Pass): seq<Event> {
    var t := st.trace + Execs(s.preBuild) + p.trace;
    if p.change then t + [Exec(LinkCommand(s, Parts(s.cSrc)))] else t
  }

  /** A compile loop that got through goes on to Finish, with the link in the trace when it saw a change. */
  lemma {:induction false} AfterCompileIsFinish(s: Settings, argv: seq<string>, conf: Config, st: St<Record>, p: Pass, w: World)
    requires p.status == Running
    ensures AfterCompile(s, argv, conf, st, p, w) == Finish(s, argv, conf, st.ctx, p.fs, st.rec, BuildTrace(s, st, p), w)
  {
  }

  lemma {:induction false} FinishRecordsBuild(s: Settings, argv: seq<string>, conf: Config, ctx: BuildContext, fs: Fs, rec: Record, trace: seq<Event>, w: World)
    ensures var out := Finish(s, argv, conf, ctx, fs, rec, trace, w);
            var runCmd := RunCommand(s, argv, conf.runArgc);
            var done := ctx.(lastBuild := w.now, lock := false);
            LastSave(out.trace) == Some(done)
            && out.exit == Returned(if conf.run then w.exitOf(runCmd) else 0)
            && |out.trace| >= |s.postRun| && out.trace[|out.trace| - |s.postRun|..] == Execs(s.postRun)
            && (DirExists(fs, s.buildDir) ==> out.rec == Stored(Encode(done)))
  {
    var done := ctx.(lastBuild := w.now, lock := false);
    var runCmd := RunCommand(s, argv, conf.runArgc);
    var t2 := trace + [Save(done)] + Execs(s.postBuild);
    LastSaveAppend(trace + [Save(done)], Execs(s.postBuild));
    LastSaveAppend(t2, Execs(s.preRun));
    var t3 := t2 + Execs(s.preRun);
    if conf.run {
      LastSaveAppend(t3, [Exec(runCmd)]);
      LastSaveAppend(t3 + [Exec(runCmd)], Execs(s.postRun));
    } else {
      LastSaveAppend(t3, Execs(s.postRun));
    }
  }

  /**
   * A clean, or a change of mode, removes build_dir with every ledger in
   * it: afterwards every existing source is stale, so the next compile
   * loop rebuilds them all.
   */
  lemma {:induction false} ResetMakesEveryUnitStale(s: Settings, conf: Config, fs: Fs, rec: Record, path: string, lastBuild: int)
    requires Load(s, fs, rec).Loaded?
    requires Load(s, fs, rec).ctx.lastMode != conf.mode || conf.clean
    requires DirExists(fs, s.buildDir)
    ensures var r := Prepare(s, conf, fs, rec);
            var fs' := if r.Next? then r.st.fs else r.out.fs;
            Ledger(s, path) !in fs'.ledgers
            && Staleness(s, fs', path, lastBuild) == if path in fs'.mtime then Some(true) else None
  {
    LedgerFileWithin(s.buildDir, SplitPath(path));
    ResetDropsLedgers(s, conf, fs, rec);
  }

  /** After a clean or a change of mode no ledger inside build_dir is left. */
  lemma {:induction false} ResetDropsLedgers(s: Settings, conf: Config, fs: Fs, rec: Record)
    requires Load(s, fs, rec).Loaded?
    requires Load(s, fs, rec).ctx.lastMode != conf.mode || conf.clean
    requires DirExists(fs, s.buildDir)
    ensures var r := Prepare(s, conf, fs, rec);
            var fs' := if r.Next? then r.st.fs else r.out.fs;
            forall l :: Within(s.buildDir, l) ==> l !in fs'.ledgers
  {
  }

}
