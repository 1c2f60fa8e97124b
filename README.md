# tor-static build orchestrator — a Dafny model

The tor-static build program builds five dependencies — openssl, libevent,
zlib, xz, and tor, in that order — by running each one's own
configure/make tool chain, on Linux or on Windows under MinGW. This project
models the program's decision logic and proves properties of it:

- `run` validates the environment, then dispatches a `build-<folder>` or
  `clean-<folder>` command.
- `validateEnvironment` checks the folders, the shell and the package versions.
- `build` and `clean` turn a folder, the operating system and some facts
  about files on disk into an ordered list of commands with environment
  overrides.
- `runCmds` and the two `all` loops run steps in order and stop at the first
  failure.
- `getAbsCurrDir` rewrites a Windows path into MSYS form.

Everything the program learns from its host is one `World` value:

- the operating system;
- the already-computed `absCurrDir`;
- what `os.Stat` reports for each path;
- the output of `uname -a` and of `pacman -Q`;
- an oracle that says which processes fail;
- whether `os.RemoveAll` fails.

Every operation returns an `Outcome`. It pairs the error, if any, with the
trace of side effects in the order they happen: diagnostic queries
(`Probed`), processes started (`Ran`) and removals (`Removed`). Ordering,
short-circuiting and "nothing runs on error" are statements about that trace.

The code is split into modules by component:

- `Types`: the world, the events, the errors, the `Then` sequencing.
- `Text`: Go's `HasPrefix`, `TrimSuffix`, `TrimSpace` and `ToSlash`.
- `Paths`: `getAbsCurrDir`.
- `Runner`: `runCmd` and `runCmds`.
- `Validate`: `validateEnvironment`.
- `Recipes`: the per-folder command table.
- `Orchestrator`: `run`, `build` and `clean`.

The parts of the Go code that work step by step are methods with the same
control flow. This covers the loops, the `err` threaded through the four
package checks, the in-place edit of the openssl command list, and the
appends in `clean`. Each method ensures that its outcome equals a declarative
specification function: the recipe table, the short-circuit executor `Exec`,
`ValidateSpec`, `BuildSpec`, `CleanSpec` and `RunSpec`. The lemmas are proved
about those specification functions.

Behaviour the model keeps exactly as the code has it:

- `build all` cleans every folder and does not build any (build.go:117).
- tor's `--with-zlib-dir` points at `openssl/dist` (build.go:177). The
  symbolic link made before the tor build puts `libz.a` there.
- `clean` of a name that is not a dependency folder is not refused as
  unrecognized. It fails with "is not a directory" only when no such
  directory exists. If the directory exists and has a `Makefile`, `make
  clean` runs in it.
- Validation reports a missing folder as "is not a dir" (`NotADir`). Clean
  reports it as "is not a directory" (`NotADirectory`).
- `os.Stat("")` never succeeds, so `clean-` with an empty folder name fails
  as "not a directory". `build-` with an empty name fails as an
  unrecognized folder.

## Model

| member | source | states |
|---|---|---|
| `Text.TrimSuffix` | build.go:51 | the colon is removed only when the volume ends in one; otherwise the volume is unchanged |
| `Text.TrimLeftIsSuffix` | build.go:76 | trimming the front keeps a suffix of the input, drops only white space, and leaves no white space at the front |
| `Text.TrimRightIsPrefix` | build.go:76 | trimming the end keeps a prefix of the input, drops only white space, and leaves no white space at the end |
| `Text.TrimSpaceIsUnpadding` | build.go:76 | for a word with no white space at its ends, `TrimSpace(s)` equals that word if and only if `s` is the word padded with white space on both sides |
| `Text.ToSlash` | build.go:51 | same length as the input; each backslash becomes a slash and every other character stays; no backslash is left |
| `Text.FromSlashUndoesToSlash` | build.go:51 | a path with no slashes comes back unchanged after slash conversion and the reverse conversion, so no information is lost |
| `Paths.AbsCurrDir` | build.go:43-54 | off Windows the absolute path is unchanged; on Windows the result starts with `/` and ends with the slash-converted part after the volume and its separator |
| `Paths.DrivePathRoundTrip` | build.go:49-52 | `X:\rest` becomes `/X/` followed by `rest` with slashes, and the Windows path can be rebuilt from the result |
| `Paths.ShareVolumeIsKept` | build.go:50-51 | a volume with no trailing colon (a UNC share) is copied unchanged between two slashes |
| `Runner.RunCmd` | build.go:234-246 | starting a process records exactly that one invocation; it fails exactly when the oracle says so, with that invocation as the error |
| `Runner.Exec` | build.go:225-232 | the attempted commands are a prefix of the list, in order. The run succeeds exactly when no listed command fails, and then every command was attempted exactly once. Otherwise the last attempted command is the first failing one, and its error is the result |
| `Runner.ExecAppend` | build.go:225-232 | running two lists back to back is running the first, then the second only if the first succeeded |
| `Runner.RunCmds` | build.go:225-232 | the loop with early return computes exactly `Exec` of the recipe's invocations in the folder with the given overrides |
| `Validate.ConfirmPackage` | build.go:73-85 | a query that cannot run fails naming the package; any other failure is a mismatch naming the package and its expected version |
| `Validate.ConfirmPackageIffPadded` | build.go:73-85 | a package check passes exactly when `pacman -Q` ran and printed `pkg vers` with only white space around it. A query that cannot run fails naming the package; a mismatch carries the trimmed output |
| `Validate.FirstNonDir` | build.go:57-62 | the index it returns is that of the first folder that is not a directory; it returns none exactly when all folders are directories |
| `Validate.PackageChecksShortCircuit` | build.go:86-98 | the packages queried are a prefix of the list, in order. The result is an error exactly when some check fails, and then it is the first failing check's error; on success every package was queried |
| `Validate.ValidateEnvironment` | build.go:56-108 | the folder loop, the shell checks and the four chained package checks compute exactly `ValidateSpec` |
| `Validate.ConfirmPackages` | build.go:86-98 | the four checks chained through `err`, each run only while no earlier one failed, compute exactly the short-circuit package checks of the four pinned packages |
| `Validate.ValidateNamesFirstMissingFolder` | build.go:56-62 | if folder k is the first that is not a directory, validation fails naming folder k before any `uname` or `pacman` query |
| `Validate.ValidateSucceedsIff` | build.go:56-108 | validation succeeds exactly when all five folders are directories and the OS rule holds. On Windows, `uname` reports a `MINGW64` prefix and all four packages match. On Linux, `uname` runs and lacks a `MINGW` prefix |
| `Validate.WindowsRequiresMingw64` | build.go:65-71 | on Windows, a failed `uname` or output without the `MINGW64` prefix fails after the `uname` query alone, with the matching error |
| `Validate.LinuxRefusesMingw` | build.go:99-105 | on Linux, `uname` output that starts with `MINGW` fails validation |
| `Validate.PackageChecksStopAtFirstFailure` | build.go:86-98 | when package k is the first mismatch, its error is the result, and only `uname` and packages 0..k were queried |
| `Validate.ValidateOnlyProbes` | build.go:56-108 | validation only makes queries: it never starts a recipe process or removes anything |
| `Recipes.BuildTable` | build.go:122-180 | there is a recipe exactly for the five dependency folders, and every recipe command names a program |
| `Recipes.OpensslRecipe` | build.go:122-133 | exactly four commands: `sh`, the config script, the prefix, `no-shared`, `no-dso` and `no-zlib`; then `make depend`, `make` and `make install`. On Windows only the first command changes: element 1 becomes `./Configure` and `mingw64` is appended |
| `Recipes.ZlibWindowsRecipe` | build.go:142-150 | on Windows zlib runs exactly `make -fwin32/Makefile.gcc` and `make install -fwin32/Makefile.gcc`, with no `./configure` step, under the overrides `PREFIX`, `BINARY_PATH`, `INCLUDE_PATH` and `LIBRARY_PATH` set to `pwd/dist`, `pwd/dist/bin`, `pwd/dist/include` and `pwd/dist/lib` |
| `Recipes.TorZlibDirIsOpensslDist` | build.go:172-177 | tor's `--with-zlib-dir` names the same directory as `--with-openssl-dir`: `pwd/../openssl/dist` |
| `Recipes.CleanPlanTable` | build.go:197-213 | every folder but zlib is cleaned by `make clean` with `Makefile` and no overrides. zlib gets `PREFIX=absCurrDir/zlib/dist`. On Windows zlib's makefile is `win32/Makefile.gcc`, named both in the presence check and as the `-f` argument; off Windows zlib uses `Makefile` and plain `make clean` |
| `Orchestrator.Run` | build.go:31-41 | computes exactly `RunSpec`: validation, then prefix dispatch |
| `Orchestrator.Build` | build.go:110-184 | the switch and the `all` loop compute exactly `BuildSpec` for every folder name |
| `Orchestrator.BuildOpenssl` | build.go:122-133 | the command list with its in-place Windows edit, run in `openssl`, computes exactly `BuildSpec` of openssl |
| `Orchestrator.BuildLibevent` | build.go:134-141 | running libevent's commands computes exactly `BuildSpec` of libevent |
| `Orchestrator.BuildZlib` | build.go:142-150 | the environment and commands chosen by OS compute exactly `BuildSpec` of zlib |
| `Orchestrator.BuildXz` | build.go:151-159 | running xz's commands computes exactly `BuildSpec` of xz |
| `Orchestrator.BuildTor` | build.go:160-180 | the conditional link step, followed by tor's commands when it did not fail, computes exactly `BuildSpec` of tor |
| `Orchestrator.Clean` | build.go:186-223 | the `all` loop, the appends to `args` and `env` and the stat checks compute exactly `CleanSpec` |
| `Orchestrator.RunValidatesFirst` | build.go:31-34 | a failed validation is the result of `run`, and the trace holds only validation queries, so neither `build` nor `clean` ran |
| `Orchestrator.RunDispatchesOnPrefix` | build.go:35-40 | after validation, `build-` input runs `build(cmd[6..])` and `clean-` input runs `clean(cmd[6..])`. Any other input returns `InvalidCommand` and runs nothing beyond validation |
| `Orchestrator.BuildAllCleans` | build.go:115-121 | `build all` does exactly what `clean all` does |
| `Orchestrator.BuildUnknownFolder` | build.go:181-182 | `build` of a folder outside the five (and not `all`) fails with `UnrecognizedFolder` and an empty trace |
| `Orchestrator.CleanUnknownFolder` | build.go:214-215 | `clean` of an unknown name that is not a directory fails with `NotADirectory` and runs nothing |
| `Orchestrator.CleanSkipsWithoutMakefile` | build.go:214-219 | a directory without its makefile is cleaned successfully without `make`; only the openssl removal happens |
| `Orchestrator.CleanZlibOnWindows` | build.go:207-220 | on Windows, zlib's clean is one `make clean -fwin32/Makefile.gcc` in `zlib`, with the `PREFIX` override |
| `Orchestrator.CleanEachSucceedsIff` | build.go:190-195 | cleaning a list succeeds exactly when each folder's clean succeeds, and then the trace is the concatenation of the folders' own traces in list order |
| `Orchestrator.CleanEachStopsAtFirstFailure` | build.go:116-120 | when folder k is the first whose clean fails, its error is the result. The trace is the earlier folders' traces plus folder k's; no later folder is touched |
| `Orchestrator.BuildOpensslSequence` | build.go:122-133 | off Windows, a successful openssl build starts exactly four processes in `openssl`: config with the prefix, `no-shared`, `no-dso` and `no-zlib`; then `make depend`, `make` and `make install` |
| `Orchestrator.BuildKnownFolderRunsRecipe` | build.go:133-159 | building a known folder other than tor is running its recipe through the short-circuit runner, and nothing else |
| `Orchestrator.BuildTorLinksFirst` | build.go:160-180 | the tor build makes the `libz.a` link only when openssl's `libz.a` is missing. If making the link fails, that failure is the result and no tor command runs. If it succeeds, the trace is the link followed by tor's recipe run through the short-circuit runner, whose error is the result |
| `Orchestrator.RemovalUnseenByLaterStats` | build.go:203-216 | no path that `clean` checks after the removal lies under `openssl/dist/lib`: neither openssl's own folder and makefile nor those of any later folder |

## Left out

- Process execution (build.go:234-246) is left out. It is the oracle `World.failing`: the same invocation always fails or always succeeds. Output wiring, the `verbose` flag and logging are I/O.
- The merge of the overrides with `os.Environ()` (build.go:238) is left out. An invocation carries only its override list.
- Real file-system access is left out: `os.Stat`, `os.RemoveAll` and the effect of `ln -s`. `World.fs` is a snapshot of stat results. Removals and links are recorded as trace events, and their effect on later stats in the same run is not threaded. `Orchestrator.RemovalUnseenByLaterStats` shows that no stat `clean` makes after the removal, in openssl's folder or any later one, reads the removed directory.
- `path.Join` (build.go:216) is modelled as `folder + "/" + makefile`. The path cleaning it applies to unusual names such as `a/` or `../x` is not modelled.
- `filepath.Abs` and `filepath.VolumeName` (build.go:45, 50) are inputs, and so is the panic on their error. The World holds the `absCurrDir` global as already computed by `Paths.AbsCurrDir`.
- Paths.AbsCurrDir: requires, on Windows, an absolute path longer than its volume; the slice-bounds panic build.go:51 would raise otherwise is not modelled, since `filepath.Abs` never returns such a path.
- `main` is I/O: flag parsing, the argument-count check and `log.Fatal` (build.go:20-29).
- Error messages are tags, not Go's formatted text. `PackageMismatch` keeps the package, the expected version and the trimmed output. It drops the stale `pacman -U` remediation text (build.go:77-82). `PacmanFailed` and `CommandFailed` do not carry the wrapped OS error.
- Output of `uname` and `pacman` is a string of Unicode scalar values rather than bytes. `TrimSpace` uses Unicode's White_Space set, which `bytes.TrimSpace` applies after UTF-8 decoding; invalid UTF-8 is not modelled. When `uname` fails, only the failure is used, and any output it gave is ignored, as in the code.
