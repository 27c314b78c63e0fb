# build_dot_c: incremental rebuild, modelled in Dafny

build_dot_c is a single-file C build tool. The user edits a configuration
block at the top of `build.c`, compiles it once, and from then on runs
`./build [dev|rel|clean|build-only|help] -- [ARGS]`. A run parses the
arguments. It reads a binary record (`build_dir/build_exe.lock`) holding
the lock flag, the last build time, the last self-build time and the last
mode. It wipes `build_dir` on `clean` or a change of mode, creates it
again, and refuses to go on while the lock is held. Otherwise it takes the
lock. The tool rebuilds and re-runs itself when `build.c` changed or the
mode changed. It then runs the pre-build hooks and compiles every source
that is stale. A source is stale when it or one of the dependencies its
compiler-written `.d` ledger lists is not older than the last build, or
when it has no ledger. The tool links when something changed, records
the build time, releases the lock, and runs the post-build hooks, the
pre-run hooks, the target (with `--`) and the post-run hooks.

Two drafts of that program are modelled: the root `build.c` and
`examples/hello_world/build.c`. They differ in many details. The model also
covers the path helpers of `build_testcases/test_build.c` and their test
expectations.

Files:

- `clib.dfy` (`CLib`) models the C library on values. It covers the C
  string in a buffer, snprintf truncation, strrchr, strchr, strtok,
  strstr, and POSIX `basename`/`dirname`.
- `build_model.dfy` (`BuildModel`) holds what the two drafts share:
  - the records (`Mode`, `BuildContext`, `Config`);
  - the configuration block as a `Settings` value;
  - the file system seen by a run (`Fs`): modification times, directories, ledger lines;
  - the trace of actions a run performs (`Exec`, `Mkdir`, `RemoveDir`, `Save`);
  - the argument loop;
  - the commands the drafts build;
  - rec_mkdir's slash walk, on a `char` array.
- `hello_build.dfy` (`HelloBuild`) models `examples/hello_world/build.c`.
- `root_build.dfy` (`RootBuild`) models `build.c`.
- `test_build.dfy` (`TestBuildHelpers`) models the helpers of
  `build_testcases/test_build.c` on caller-supplied `char` arrays.

Each `main` is a method (`RunBuild`) proved equal to a function `Run`.
`Run` is built from stages with their own methods: `Prepare` (record,
reset, mkdir, lock), `SelfRebuild`, and `Build` (hooks, compile loop,
link, `Finish`). The properties are lemmas about those functions. Each
loop of the C code (the argument loop, check_deps, the compile loop,
compile_exe, the mkdir walk, the helpers) is a `while`/`for` loop proved
against the function that specifies it.

Inputs the model takes as parameters:

- the status `pclose` returns for each command (`World.exitOf`);
- the clock (`World.now`);
- for the hello_world draft, the value a missing path's `stat` leaves in
  its uninitialised buffer (`unknownMtime`), and the context its
  `fread(&ctx, …)` leaves (`readBack`).

Points where the code behaves in a way a reader might not expect, which
the model follows:

- A failed self-build returns with the lock still held. So does a failed
  assert in the root draft (a missing build.c, source or header): the run
  aborts after the lock was saved.
- The self-rebuild trigger is `last_modif < mtime(build.c)`, a mode change,
  or `build-only`. There is no "rebuilding" guard. The rebuilt tool is
  re-run as a child process whose status is returned.
- Units are compiled one after another, in order. The loop stops at the
  first failed compile. There is no job scheduler.
- In the root draft, `change` is overwritten by every unit. So only the
  last unit decides whether to link (`RootBuild.LinkIffLastUnitStale`).
  A failed link is only reported, and the run goes on to record the build.
  `pre_run` and `post_run` run even without `--`.
- In the root draft, check_deps looks only at ledger tokens that end in `h`
  and contain `src`, on every line and at every position. The hello_world
  draft skips only the first token of each line. So the second line of a
  wrapped Makefile rule loses its first dependency
  (`HelloBuild.ContinuationHeaderIgnored`).
- Both drafts call `getline(&line, NULL, f)`, which glibc, musl and the BSD
  C libraries reject (EINVAL, -1), so built against them neither draft
  reads a ledger line. The model reads the ledger line by line, which is
  what the loop is written to do; the check_deps lemmas describe that loop.

## Model

| member | source | states |
|---|---|---|
| CLib.CStr | build.c:97 | the C string of a buffer is its longest NUL-free prefix, followed by the NUL that ends it |
| CLib.Truncate | build.c:97 | snprintf into n+1 cells keeps the first n characters of a longer source and all of a source that fits |
| CLib.LastIndexOf | build_testcases/test_build.c:18 | strrchr gives -1 or an index holding c, with no c after it |
| CLib.Tokens | build.c:146-162 | every token strtok returns is nonempty and free of the delimiter |
| CLib.TokensSkipDelimiter | build.c:146 | a leading delimiter starts no token: the tokens after it are the tokens of the rest |
| CLib.TokensEmpty | build.c:146 | strtok finds no token exactly when the string consists of delimiters only |
| CLib.TokensOfPlain | build.c:146 | a nonempty delimiter-free string is its own single token |
| CLib.TokensOfSplit | build.c:146 | a leading delimiter-free word followed by the delimiter is the first token, and tokenising goes on after it |
| CLib.SplitDirBase | build.c:172 | dirname and basename of d/b are d and b when b is a plain name |
| BuildModel.ParseArgs | build.c:235-251 | the argument loop's method returns exactly the decision of the specification function Parse |
| BuildModel.ParseMeaning | build.c:235-251 | parsing reads the leading option words: the last dev/rel sets the mode, clean and build-only set flags, "help" exits 0, "--" sets run and run_argc, any other word is rejected |
| BuildModel.ParseIgnoresRunArgs | build.c:236-240 | the words after "--" never change the parse, and "--" at position k gives run with run_argc = k |
| BuildModel.LeadingOptionsAt | build.c:235-251 | the option run ends exactly at the first word that is not an option |
| BuildModel.LastModeCons | build.c:242-243 | the mode after an option list is the mode its first word sets, carried through the rest |
| BuildModel.ParseOutcomeCons | build.c:241-245 | an option word updates the configuration and parsing continues at the next index |
| BuildModel.ParseAtDashes | build.c:236-240 | with only options before a "--" at index k, parsing proceeds with the options' configuration, run set and run_argc = k |
| BuildModel.OptionsConfigCons | build.c:241-245 | reading an option word first is applying it to the configuration the remaining words start from |
| BuildModel.ParseOutcomeAtWord | build.c:236-249 | at a word that is not an option the reading decides on that word alone: "--" runs, "help" shows the help, any other word is rejected |
| BuildModel.ParseFromMeaning | build.c:235-251 | the loop from index i decides what the option reading of argv[i..] decides |
| BuildModel.BuildRerunCommand | build.c:303-307 | the re-run command is build_exe followed by every argument except "clean", space separated |
| BuildModel.RerunStep | build.c:305-307 | each further argument adds a space and the word to the re-run command, except "clean", which adds nothing |
| BuildModel.WithoutCleanMembers | build.c:305 | the forwarded arguments are exactly the original ones other than "clean" |
| BuildModel.WithoutCleanIdentity | build.c:305 | without a "clean" argument every argument is forwarded |
| BuildModel.BuildRunCommand | build.c:343-345 | the run command is build_dir/c_exe followed by the arguments after "--" |
| BuildModel.RunHooks | build.c:335-338 | a hook loop runs every hook command in order and nothing else |
| BuildModel.AppendFlags | examples/hello_world/build.c:156-158 | append_flags appends "flag " for every flag, in order |
| BuildModel.FlagTextAppend | examples/hello_world/build.c:156-158 | the flag text of two flag lists in a row is the text of the first followed by the text of the second |
| BuildModel.FlagTextAt | examples/hello_world/build.c:156-158 | flag i's "flag " stands between the text of the flags before it and the text of the flags after it |
| BuildModel.StemOfName | build.c:172 | strtok(base, ".") of a name not starting with '.' is the text before its first '.' |
| BuildModel.ObjectLedgerTwins | build.c:141 | a unit's ledger path is its object path with the final "o" replaced by "d" |
| BuildModel.LedgerFileWithin | build.c:141 | every unit's ledger path lies inside build_dir |
| BuildModel.ObjectsAppend | build.c:190-193 | the objects of two unit lists in a row are the objects of the first followed by those of the second |
| BuildModel.ObjectListStep | build.c:190-193 | each pass of compile_exe's loop appends the next unit's object and a space |
| BuildModel.ObjectListAppend | build.c:190-193 | the object list of a concatenation of units is the concatenation of their lists |
| BuildModel.ObjectListAt | build.c:190-193 | unit i's object sits between the objects of the units before and after it |
| BuildModel.LinkListsEveryObject | build.c:185-195 | the link command holds the object of every unit in source order, not only the changed ones |
| BuildModel.MkdirWalk | build.c:100-106 | the slash walk leaves the buffer as it was and calls mkdir on the slash prefixes and then the whole path |
| BuildModel.SlashPrefixesArePrefixes | build.c:100-105 | each intermediate mkdir path is a prefix of the path and shorter than the part walked |
| BuildModel.MkdirPrefix | build.c:102-104 | cutting the buffer at a '/' hands mkdir the text before the '/' and leaves the buffer as it was |
| BuildModel.SlashPrefixesMembers | build.c:100-105 | the intermediate mkdir paths are exactly the prefixes ending before a '/' at index 1 or later |
| BuildModel.SlashPrefixesIncreasing | build.c:100-105 | the intermediate mkdir paths come shortest first |
| BuildModel.MkdirSequenceMeaning | build.c:100-106 | rec_mkdir creates every ancestor before the directory itself, each call extending the earlier ones, and the path last |
| BuildModel.LastSave | build.c:120-130 | the context of the most recent set_build is one the trace saved, and there is none exactly when nothing was saved |
| BuildModel.LastSaveAppend | build.c:120-130 | the most recent save after more actions is the newer one, or the older one when the new actions save nothing |
| BuildModel.RemoveTree | build.c:262-264 | `rm -dr build_dir` removes exactly the directories, files and ledgers under build_dir and keeps everything else |
| BuildModel.AddDirs | build.c:95-107 | successful mkdir calls add their paths as directories and change no file |
| RootBuild.DecodeEncode | build.c:109-130 | get_build reads back exactly the context set_build wrote |
| RootBuild.DecodeReadsEncoding | build.c:109-119 | a readable record starts with the encoding of the context read, and what follows is never read |
| RootBuild.SetBuild | build.c:120-130 | set_build's method stores the encoded context while build_dir exists and leaves the record alone otherwise |
| RootBuild.GetBuild | build.c:109-119 | get_build's method gives the zero context and creates an empty record when there is none, reads the four values otherwise, and aborts on a record that lacks them |
| RootBuild.SaveThenLoad | build.c:109-130 | a context saved while build_dir exists is the context the next run loads |
| RootBuild.UnreadableRecordAborts | build.c:113-116 | a record without the four values aborts the run before anything is written or run |
| RootBuild.PartsFiles | build.c:137-141 | a unit d/n.e (n free of '.' and '/', d not ending in '/') has its object at build_dir/d/n.o and its ledger at build_dir/d/n.d |
| RootBuild.PlainPartsFiles | build.c:172-180 | a unit n.e without a directory has its object at build_dir/./n.o and its ledger at build_dir/./n.d |
| RootBuild.RecMkdir | build.c:95-107 | rec_mkdir's method cuts dir to BUFFER_SIZE - 1 characters, drops one trailing '/', and walks the result |
| RootBuild.MkdirCallsOfShortPath | build.c:95-107 | for a short path, the calls are the mkdir walk of the path without one trailing '/' |
| RootBuild.MkdirTrailingSlash | build.c:99 | "d/" and "d" lead to the same mkdir calls |
| RootBuild.DepPathOfShortToken | build.c:148-157 | a token shorter than BUFFER_SIZE counts, with its newline removed, exactly when it ends in 'h' and contains "src" |
| RootBuild.OnlySourceHeadersCount | build.c:146-162 | a ledger line makes its unit stale exactly when one of its tokens, newline removed, is a header under src no older than the last build |
| RootBuild.ScanLine | build.c:146-163 | the token loop aborts exactly when a considered token names a missing path, and otherwise reports whether one is not older than the last build |
| RootBuild.ScanLedger | build.c:144-168 | the line loop aborts when any line has a missing considered dependency, and otherwise reports whether any line has a newer one |
| RootBuild.CheckDeps | build.c:132-169 | check_deps aborts on a missing source, is true when the source is not older than the last build or there is no ledger, and otherwise follows the ledger verdict |
| RootBuild.StalenessIgnoresDirs | build.c:132-169 | creating directories never changes a staleness verdict |
| RootBuild.Compile | build.c:170-184 | compile_file aborts exactly when check_deps does, reports check_deps' verdict, does nothing for a fresh unit, and never changes sources or ledgers |
| RootBuild.CompileFile | build.c:170-184 | compile_file's method equals the specification Compile: the verdict, mkdir of a missing output dir, "cc -c src -o obj flags" |
| RootBuild.StaleUnitCompiles | build.c:175-183 | a stale unit's events are the output directory's mkdirs followed by its compile command, whose status it returns |
| RootBuild.CompileExe | build.c:185-195 | compile_exe builds the link command over every unit's object and succeeds exactly when that command exits 0 |
| RootBuild.CompileAll | build.c:318-327 | the compile loop never changes sources or ledgers |
| RootBuild.CompileUnits | build.c:318-327 | the compile loop's method equals the specification CompileAll |
| RootBuild.CompileAllStops | build.c:321-326 | once the loop stops, later units are not compiled |
| RootBuild.CompileAllChange | build.c:318-327 | after a loop that ran to the end, no unit aborted, and `change` is the verdict on the last unit only |
| RootBuild.CompileAllSucceeded | build.c:319-326 | after a loop that ran to the end, every stale unit compiled with status 0 |
| RootBuild.CompileAllFailed | build.c:319-326 | a failed loop stopped at a stale unit whose compile failed, after every earlier unit went through |
| RootBuild.FailedUnit | build.c:319-326 | a failed loop has a unit i before which every unit went through; unit i was stale, its compile exited nonzero, and the loop ended right after it |
| RootBuild.AbortedUnit | build.c:319-320 | an aborted loop has a unit i before which every unit went through, and check_deps aborted on unit i |
| RootBuild.CompileAllAborted | build.c:319-320 | an aborted loop stopped at a unit whose check_deps aborted, after every earlier unit went through |
| RootBuild.CompileAllSavesNothing | build.c:318-327 | the compile loop never saves the record |
| RootBuild.PrepareRun | build.c:254-280 | the method from get_build to the lock equals the specification Prepare |
| RootBuild.RebuildSelf | build.c:282-313 | the self-rebuild method equals the specification SelfRebuild |
| RootBuild.BuildTarget | build.c:314-352 | the target-build method equals the specification Build |
| RootBuild.FinishRun | build.c:331-352 | the method for the final save, hooks and run equals the specification Finish |
| RootBuild.RunBuild | build.c:232-353 | main's method equals the specification Run |
| RootBuild.ParseExits | build.c:241-249 | "help" returns 0 and an unknown word returns 1, touching nothing |
| RootBuild.LockHeldStops | build.c:274-277 | a held lock returns 1 with no Exec event (the reset's `rm -dr` is the RemoveDir event), and any context saved is the one read |
| RootBuild.PrepareLocks | build.c:274-280 | after Prepare the lock is taken, the locked context is the last saved, no Exec event has happened (the reset's `rm -dr` is the RemoveDir event), and the record holds it while build_dir exists |
| RootBuild.SelfRebuildExtendsTrace | build.c:282-313 | the self-rebuild either passes the state on untouched or stops after adding actions to the trace |
| RootBuild.BuildExtendsTrace | build.c:314-352 | the target build only adds actions after the ones before it |
| RootBuild.FinishExtendsTrace | build.c:331-352 | the final stage only adds actions |
| RootBuild.LockTakenFirst | build.c:274-280 | an unlocked run saves the locked context before its first Exec event (the reset's `rm -dr` is the RemoveDir event) |
| RootBuild.LockedLastSave | build.c:278-279 | after the lock is taken, the locked context stays the last saved until something else is saved |
| RootBuild.MissingBuildFileKeepsLock | build.c:283 | a missing build.c aborts with the lock held, so the next run reads a held lock |
| RootBuild.SelfRebuildFailureKeepsLock | build.c:286-296 | a failed self-build returns the compiler's status with the lock still held |
| RootBuild.SelfRebuildRecords | build.c:286-312 | a due self-rebuild whose compile exits 0 runs the self-build first, saves the mode and the time with the lock released, and ends with 0 after two actions (build-only) or with the re-run as its third action and its status |
| RootBuild.SelfRebuildSuccess | build.c:286-312 | a successful self-build records the mode and the time, releases the lock, and returns 0 (build-only) or the status of the re-run |
| RootBuild.NoSelfRebuild | build.c:284-285 | without the trigger, the run goes straight to the target build |
| RootBuild.DependencyAbortKeepsLock | build.c:135-159 | a missing source or header aborts the target build with no save after the lock |
| RootBuild.CompileFailureReleasesLock | build.c:321-326 | a failed compile returns 2 right after saving the context with the lock released |
| RootBuild.AfterCompileLinks | build.c:328-330 | after a loop that ran to the end, the action right after the pre-build hooks and the compile events is the link exactly when `change` is set |
| RootBuild.AfterCompileIsFinish | build.c:328-331 | after a loop that ran to the end, the rest of the run is the final stage, whatever the link returned |
| RootBuild.LinkIffLastUnitStale | build.c:318-330 | the action right after the compile loop is the link exactly when the last unit was stale |
| RootBuild.BuildFinishes | build.c:328-352 | whatever the link did, the run records the time as last_build, releases the lock, runs the post-run hooks last, and returns the target's status or 0 |
| RootBuild.FinishRecordsBuild | build.c:331-352 | the final stage saves the released context with the new build time and returns the run status or 0 |
| RootBuild.ResetDropsLedgers | build.c:259-272 | after clean or a mode change no ledger under build_dir is left |
| RootBuild.ResetMakesEveryUnitStale | build.c:259-272 | after clean or a mode change no ledger is left, so every existing source is stale |
| HelloBuild.SplitPath | examples/hello_world/build.c:130-137 | split_path's parts are dirname and basename when they fit PATH_MAX, and otherwise their first PATH_MAX - 1 characters |
| HelloBuild.SplitPathOfJoin | examples/hello_world/build.c:130-137 | a short path d/b splits back into d and b |
| HelloBuild.PartsFiles | examples/hello_world/build.c:180-183 | a unit d/n.e with short parts (n free of '.' and '/', d not ending in '/') has its object at build_dir/d/n.o and its ledger at build_dir/d/n.d |
| HelloBuild.PlainPartsFiles | examples/hello_world/build.c:204-210 | a short unit n.e without a directory has its object at build_dir/./n.o and its ledger at build_dir/./n.d |
| HelloBuild.RecMkdir | examples/hello_world/build.c:150-155 | rec_mkdir's method copies dir into a PATH_MAX buffer and walks it without dropping a trailing '/' |
| HelloBuild.MkdirCallsOfShortPath | examples/hello_world/build.c:150-155 | for a short path, rec_mkdir creates the ancestors and then the path itself |
| HelloBuild.Load | examples/hello_world/build.c:160-167 | get_build aborts exactly on an empty record, and a missing record gives the zero context and is created while build_dir exists |
| HelloBuild.CheckDeps | examples/hello_world/build.c:176-201 | check_deps is true exactly when the source is not older, there is no ledger, or a token after the first on some line names a path not older than the last build |
| HelloBuild.SourceNewerIsStale | examples/hello_world/build.c:179 | a source not older than the last build is stale |
| HelloBuild.MissingLedgerIsStale | examples/hello_world/build.c:183-185 | a source with no ledger at build_dir/dir/stem.d is stale |
| HelloBuild.StaleIgnoresDirs | examples/hello_world/build.c:176-201 | creating directories never changes staleness |
| HelloBuild.WordsLine | examples/hello_world/build.c:187 | a line of three space-separated words yields those three tokens |
| HelloBuild.IndentedLine | examples/hello_world/build.c:187 | an indented line's single word is its only token |
| HelloBuild.ContinuationHeaderIgnored | examples/hello_world/build.c:186-196 | on a wrapped rule the first dependency of the continuation line is skipped, so a changed header there does not make the unit stale |
| HelloBuild.HeaderAfterTargetCounts | examples/hello_world/build.c:186-196 | a changed header right after the target on a line makes the unit stale |
| HelloBuild.Compile | examples/hello_world/build.c:202-213 | compile_file reports the staleness, does nothing for a fresh unit, and never changes sources or ledgers |
| HelloBuild.CompileFile | examples/hello_world/build.c:202-213 | compile_file's method equals the specification Compile |
| HelloBuild.StaleUnitCompiles | examples/hello_world/build.c:207-212 | a stale unit's events are mkdirs then its compile command, whose status it returns |
| HelloBuild.CompileExe | examples/hello_world/build.c:214-224 | compile_exe builds the link command over every unit's object and succeeds exactly when it exits 0 |
| HelloBuild.CompileAll | examples/hello_world/build.c:290-300 | the compile loop never changes sources or ledgers |
| HelloBuild.CompileUnits | examples/hello_world/build.c:290-300 | the compile loop's method equals the specification CompileAll |
| HelloBuild.CompileAllStops | examples/hello_world/build.c:293-298 | once the loop stops, later units are not compiled |
| HelloBuild.CompileAllChange | examples/hello_world/build.c:290-300 | after a loop that ran to the end, `change` holds exactly when some unit was stale |
| HelloBuild.CompileAllSomeStale | examples/hello_world/build.c:290-300 | after a loop that ran to the end, `change` is true exactly when some unit was stale |
| HelloBuild.UnitSavesNothing | examples/hello_world/build.c:202-213 | compile_file only creates directories and runs commands; it never saves the record |
| HelloBuild.CompileAllSucceeded | examples/hello_world/build.c:291-299 | after a loop that ran to the end, every stale unit compiled with status 0 |
| HelloBuild.CompileAllFailed | examples/hello_world/build.c:291-299 | a failed loop stopped at the first stale unit whose compile failed |
| HelloBuild.FailedUnit | examples/hello_world/build.c:291-299 | a failed loop has a unit i before which every unit went through; unit i was stale, its compile exited nonzero, and the loop ended right after it |
| HelloBuild.CompileAllSavesNothing | examples/hello_world/build.c:290-300 | the compile loop never saves the record |
| HelloBuild.PrepareRun | examples/hello_world/build.c:246-260 | the method from get_build to the lock equals the specification Prepare |
| HelloBuild.RebuildSelf | examples/hello_world/build.c:262-288 | the self-rebuild method equals the specification SelfRebuild |
| HelloBuild.BuildTarget | examples/hello_world/build.c:289-320 | the target-build method equals the specification Build |
| HelloBuild.FinishRun | examples/hello_world/build.c:307-320 | the method for the final save, hooks and run equals the specification Finish |
| HelloBuild.RunBuild | examples/hello_world/build.c:226-321 | main's method equals the specification Run |
| HelloBuild.ParseExits | examples/hello_world/build.c:238-243 | "help" returns 0 and an unknown word returns 1, touching nothing |
| HelloBuild.LockHeldStops | examples/hello_world/build.c:259 | a held lock returns 1 with no Exec event (the reset's `rm -dr` is the RemoveDir event), and any context saved is the one read |
| HelloBuild.PrepareLocks | examples/hello_world/build.c:259-260 | after Prepare the lock is taken, the locked context is the last saved, and no Exec event has happened (the reset's `rm -dr` is the RemoveDir event) |
| HelloBuild.SelfRebuildExtendsTrace | examples/hello_world/build.c:262-288 | the self-rebuild either passes the state on untouched or stops after adding actions to the trace |
| HelloBuild.BuildExtendsTrace | examples/hello_world/build.c:289-320 | the target build only adds actions after the ones before it |
| HelloBuild.FinishExtendsTrace | examples/hello_world/build.c:307-320 | the final stage only adds actions |
| HelloBuild.LockTakenFirst | examples/hello_world/build.c:259-260 | an unlocked run saves the locked context before its first Exec event (the reset's `rm -dr` is the RemoveDir event) |
| HelloBuild.SelfRebuildFailureKeepsLock | examples/hello_world/build.c:263-274 | a failed self-build returns the compiler's status with the lock still held |
| HelloBuild.SelfRebuildRecords | examples/hello_world/build.c:263-287 | a due self-rebuild whose compile exits 0 runs the self-build first, saves the mode and the time with the lock released, and ends with 0 after two actions (build-only) or with the re-run as its third action and its status |
| HelloBuild.SelfRebuildSuccess | examples/hello_world/build.c:263-287 | a successful self-build records the mode and the time, releases the lock, and returns 0 (build-only) or the status of the re-run |
| HelloBuild.NoSelfRebuild | examples/hello_world/build.c:263 | without the trigger, the run goes straight to the target build |
| HelloBuild.CompileFailureReleasesLock | examples/hello_world/build.c:293-297 | a failed compile returns 2 right after saving the context with the lock released |
| HelloBuild.LinkIffSomeUnitStale | examples/hello_world/build.c:290-306 | the action right after the compile loop is the link exactly when some unit was stale |
| HelloBuild.AfterCompileLinks | examples/hello_world/build.c:301-306 | after a loop that ran to the end, the action right after the pre-build hooks and the compile events is the link exactly when `change` is set |
| HelloBuild.AfterCompileIsFinish | examples/hello_world/build.c:301-307 | after a loop that ran to the end with no link or a link that exits 0, the rest of the run is the final stage |
| HelloBuild.FinishRecordsBuild | examples/hello_world/build.c:307-320 | the final stage saves the released context with the new build time and returns the target's status with "--" or 0 |
| HelloBuild.LinkFailureReleasesLock | examples/hello_world/build.c:301-306 | a failed link returns 2 right after saving the context with the lock released |
| HelloBuild.BuildSuccess | examples/hello_world/build.c:301-320 | a build whose link (if any) succeeds records the time, releases the lock, and returns the target's status with "--" or 0 |
| HelloBuild.ResetDropsLedgers | examples/hello_world/build.c:251-258 | after clean or a mode change no ledger under build_dir is left |
| HelloBuild.ResetMakesEveryUnitStale | examples/hello_world/build.c:251-258 | after clean or a mode change no ledger is left, so every unit is stale |
| TestBuildHelpers.StripExtension | build_testcases/test_build.c:16-20 | with u the copy of src cut to dst_size - 1 characters, the result is a prefix of u, shorter than u exactly when u has a '.', and then it stops at u's last '.' |
| TestBuildHelpers.FilenameWithoutPath | build_testcases/test_build.c:21-29 | the result is the text after src's last '/' (all of src when there is none), cut to dst_size - 1 characters, and has no '/' |
| TestBuildHelpers.PathWithoutFilename | build_testcases/test_build.c:30-38 | with u the copy of src cut to dst_size - 1 characters, the result is u up to its last '/', or "" when u has no '/' |
| TestBuildHelpers.CopyInto | build_testcases/test_build.c:17 | snprintf stores the truncated source and a NUL and leaves the later cells alone |
| TestBuildHelpers.LastIndexIn | build_testcases/test_build.c:18 | strrchr on the buffer's C string finds the last occurrence of c |
| TestBuildHelpers.StripExtensionInto | build_testcases/test_build.c:16-20 | strip_extension leaves StripExtension's result as dst's C string, and the cells after the copy unchanged |
| TestBuildHelpers.FilenameWithoutPathInto | build_testcases/test_build.c:21-29 | get_filename_without_path leaves FilenameWithoutPath's result as dst's C string and a NUL in the last cell |
| TestBuildHelpers.PathWithoutFilenameInto | build_testcases/test_build.c:30-38 | get_path_without_filename leaves PathWithoutFilename's result as dst's C string |
| TestBuildHelpers.ArrayLength | build_testcases/test_build.c:39-45 | get_array_length returns the index of the first NULL: every earlier entry is non-NULL |
| TestBuildHelpers.SplitJoinsBack | build_testcases/test_build.c:21-38 | for a fitting path with a '/', directory + "/" + file name is the path again |
| TestBuildHelpers.LastIndexOfJoin | build_testcases/test_build.c:18 | strrchr finds the c that only c-free text follows |
| TestBuildHelpers.SplitAtLastSlash | build_testcases/test_build.c:21-38 | d/b with a plain b splits into directory d and file name b |
| TestBuildHelpers.StripExtensionOfDotted | build_testcases/test_build.c:16-20 | n.e with a dot-free e loses exactly ".e" |
| TestBuildHelpers.StripExtensionOfPlain | build_testcases/test_build.c:16-20 | a fitting name without '.' is kept whole |
| TestBuildHelpers.StripExtensionCases | build_testcases/test_build.c:51-59 | "foo/bar.c" gives "foo/bar", "baz.txt" gives "baz", "noext" gives "noext" |
| TestBuildHelpers.FilenameWithoutPathCases | build_testcases/test_build.c:65-73 | "foo/bar.c" gives "bar.c", "baz.txt" and "noext" are kept |
| TestBuildHelpers.PathWithoutFilenameCases | build_testcases/test_build.c:79-87 | "foo/bar.c" gives "foo", "baz.txt" gives "", "/usr/local/bin/test" gives "/usr/local/bin" |

## Left out

- Console output (`printf`, the help text, the compiler output `exec` copies) is not modelled: it changes no state.
- `popen`/`pclose` are not modelled. A command's status is an input, and the model takes it as the exit status. pclose actually returns a wait status, which main returns as is.
- Each `time(NULL)` call reads the same input clock `now`. build.c and the hello_world draft call it twice in a row for last_modif and last_build.
- The compiler's own effects are not modelled: new `.o` and `.d` files, and the timestamps they carry. The next run sees whatever file system it is given.
- The record file's byte layout is not modelled. The root draft is modelled as four typed values, so a record with the wrong value types is unreadable. The hello_world draft writes the bytes of a pointer and reads into a pointer (`fread(&ctx, …)`). The model only records whether something was written, and takes the value the next read yields as the input `readBack`.
- The record file is assumed to live in `build_dir`. Directory existence is compared as exact strings, with no path normalisation.
- A failed `mkdir` (printed, then ignored) is not modelled: every mkdir call is taken to succeed.
- `rm -dr build_dir` is the event RemoveDir and is taken to succeed: it always removes the tree, and its status is ignored, as the code ignores it. ResetDropsLedgers and ResetMakesEveryUnitStale rely on that.
- `sprintf` overflow of the fixed buffers, and the overlapping `sprintf(cmd, "%s %s", cmd, …)`, are not modelled. Commands are built as unbounded strings. Only the snprintf copies that truncate (rec_mkdir, split_path and the test helpers) are modelled with their bounds.
- RootBuild.RecMkdir: `rec_mkdir("")` reads `tmp[-1]`; the model leaves the buffer unchanged in that case.
- HelloBuild.RecMkdir: the model fills the buffer with NULs before the copy, where the C buffer past the copy is uninitialised, so `rec_mkdir("")` reading `tmp[1]` is not modelled as undefined; neither caller passes "".
- Tokens: its own contract only says each token is nonempty and free of the delimiter; what the tokens are is stated by TokensSkipDelimiter, TokensOfSplit, TokensOfPlain and TokensEmpty, which together decide it case by case.
- RootBuild.DepPath: a token that is a lone newline makes check_deps read `tok[-1]`; the model skips such a token.
- HelloBuild.CheckDeps: for a path that does not exist, STAT_FILE leaves an uninitialised `struct stat`. The model takes its time as the input `unknownMtime` and does not model undefined behaviour beyond that.
- `getline(&line, NULL, f)`: glibc, musl and the BSD C libraries reject a NULL size pointer with EINVAL and return -1, so with those libraries neither draft reads any ledger line, and an existing ledger leaves a unit fresh unless its source is newer. The model reads every line, as the loop is written to do; RootBuild.OnlySourceHeadersCount, HelloBuild.ContinuationHeaderIgnored and HelloBuild.HeaderAfterTargetCounts describe that intended loop, not the binary those libraries produce.
- HelloBuild: the hello_world draft's `exec` takes its command as a printf format (`vsprintf(cmd, format, …)`), and each built command (the compile, the link, the re-run, the run and the hooks) is passed as that format. The model records each command unexpanded, which is the command that runs only when it holds no '%'; a '%' in a flag, path, hook or argument is expanded, or is undefined behaviour when the conversion has no argument, and `exitOf` is applied to the unexpanded text.
- glibc's treatment of a path starting with exactly two slashes by `dirname` is not modelled; POSIX `dirname`/`basename` are.
- `unsigned int` wrap-around in `get_array_length` is not modelled; arrays in the model are shorter than 2^32 entries in practice.
- The subprocess tests of `build_testcases/test_build.c` (`test_run_build_help`, `test_run_build_on_main`) are not modelled: they compile and run binaries through `system`.
- `js/get_remote_content.js` is not part of this model.
- Concurrency between two runs is not modelled: the lock is a flag in the record, and each run is a single sequential process.
