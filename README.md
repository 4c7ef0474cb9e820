# yb build core, modelled in Dafny

This project models the build core of `yb`, a tool that runs the build
phases a package declares in its manifest. It covers three parts.

- **The `build` dispatcher (`build.go`).** It selects the phase to build
  and sets the phase's `KEY=VALUE` environment entries, with `{PKGDIR}`
  replaced by the package directory. It then runs the phase's commands in
  one of two ways:
  - in a fresh build container, after finding and removing an old one, and
    creating and starting the new one;
  - on the host, through either the sandbox executor or the plain host
    executor.

  Each completed command gets a `CommandTimer`. The first failing command
  stops the build.
- **The CLI `build` subcommand (`cli/build.go`).** It parses the
  `@package:target` argument, chooses the package to build and maps the
  outcome to an exit status.
- **The toolchain providers (`buildpacks/`).** Flutter, Gradle, R and
  Maven each compute a download URL and an install location. Each one
  installs its tool once (check, download, unpack, and for R a source
  build) and puts it on `PATH`.

The executors, the container runtime and the clock are oracles fixed in a
`World` value. Whether a call succeeds depends on its position in the
call log and on the call itself. Reading `n` of the clock is `clock(n)`.
The `Runtime` class holds:
- the call log;
- the number of clock readings taken;
- the process environment.

`RunCommands`, `RunCommandsInContainer` and the environment loop are
methods over that state. Each is proved equal to a recursive
specification function (`RunFrom`, `ContainerFrom` after `SetUp`, `EnvAfter`), and the
properties are lemmas about those functions. The Flutter and R providers
act on an install target (`t.ToolsDir`, `t.PathExists`, `t.DownloadFile`,
`t.Unarchive`, `t.PrependToPath`); the Gradle and Maven providers act on
the host process and filesystem instead (`os.Stat`, `os.Getenv`,
`os.Setenv`, `archiver.Unarchive`, and for Maven the package-level
`ToolsDir()`). The model runs all four on one `Machine` class, which holds:
- a set of existing paths;
- an environment;
- a log of actions;
- download and extraction oracles.

The model follows the code as written:
- A failing command gets no timer. A failure at command k returns the
  timers of commands 1..k-1.
- `cd` steps get a timer like any other command.
- The sandbox flag is only the manifest's top-level flag. `target.Sandbox`
  is read while `target` is still the zero phase (build.go:94-95).
- The build root is joined onto the directory again before every non-`cd`
  command, so it accumulates.
- An environment value is only the text between the first and the second
  `=`.
- The error of `os.Setenv` is ignored (build.go:126): an entry the system
  refuses, such as `=x` with its empty key, leaves the environment as it
  was.
- At cli/build.go:95 the code tests the stale lookup error, which is nil
  there. So exit failure is decided by the build error alone.

## Model

| member | source | states |
|---|---|---|
| Build.Runtime.Now | build.go:280-280 | a clock reading returns the clock's value at the next reading index and advances the count by one |
| Build.Runtime.Perform | build.go:297-308 | a call is appended to the call log and succeeds exactly as the world decides for that position |
| Build.Runtime.SetEnv | build.go:126-126 | `os.Setenv` sets exactly one variable when the system accepts it (non-empty key without `=` or NUL, value without NUL) and otherwise reports the refusal and changes nothing |
| Build.CdTargetIsSecondPiece | build.go:285-287 | the directory of a `cd ` command, everything after its first three characters, is exactly the second piece `SplitN(cmd, " ", 2)` yields |
| Build.PrefixHidesCd | build.go:281-285 | under an exec prefix that does not start with `c`, the `cd` test sees `prefix + " " + cmd`, so a `cd` command is run as an ordinary command |
| Build.RunStep | build.go:280-320 | one loop iteration: a `cd` moves the directory and calls nothing; another command runs in the re-rooted directory through the configured executor; the clock is read twice on success and once on failure, and the timer holds the prefixed text and both readings |
| Build.RunCommands | build.go:271-329 | the loop's timers, error, call log and clock readings are those of `RunFrom` over the phase's commands from the package directory |
| Build.RunCommand | build.go:280-322 | one pass of the loop: a `cd` or a command that succeeds leaves the rest of the run to be the specification of the remaining commands from the new directory, with this command's timer in front; a failing command ends the run with its error |
| Build.RunFromTimers | build.go:279-326 | the k-th timer belongs to the k-th command, with its prefixed text and clock readings 2k and 2k+1; readings taken = 2 per timer plus 1 on failure |
| Build.RunFromEnds | build.go:299-307 | no error exactly when every command was timed; an error names the last call made |
| Build.RunFromFailure | build.go:297-308 | on an error, the failed call is an executor call for the command right after the last timed one, and the world said it fails |
| Build.RunFromSucceeded | build.go:297-308 | the run only appends calls, and every appended call succeeded except an erroneous last one |
| Build.RunFromOutcome | build.go:279-328 | combined: stops at the first failing call and at nothing else; without error every command is timed and every call succeeded |
| Build.AllSucceedAllTimed | build.go:279-328 | when every executor call succeeds, the error is nil and there is one timer per command, `cd` included |
| Build.RunFromExecutor | build.go:285-308 | every call goes to the sandbox iff the configuration is sandboxed, else to the host executor, and no call runs a `cd` command |
| Build.CdOnlyRunsNothing | build.go:285-290 | `cd` commands reach no executor, never fail, and are all timed |
| Build.RunFromCalls | build.go:285-308 | the calls the host loop appends are `CommandCalls` of the commands it reached (the timed ones and the failing one): in order, one per non-`cd` command, running its prefixed text through the configured executor in the re-rooted directory that the `cd`s and root joins before it lead to |
| Build.RootAccumulates | build.go:292-295 | without `cd`, the n-th command runs in the package directory with the root joined on n times |
| Build.TimersOrdered | build.go:311-320 | with a clock that never goes back, each timer has start ≤ end and timers do not overlap, in order |
| Build.SetUpContainer | build.go:209-233 | the set-up steps run in order and the first failing one is returned, as `SetUp` computes |
| Build.SetUpOutcome | build.go:209-233 | the set-up runs no command; without failure it makes exactly find, remove-if-found, create, start; on failure the failed call is the last call and every earlier set-up call succeeded |
| Build.RunInContainer | build.go:237-268 | the container loop's timers, error, calls and readings are those of `ContainerFrom` |
| Build.RunCommandsInContainer | build.go:199-269 | the whole containerised run (set-up, then the loop in the new container) equals `InContainer` |
| Build.ContainerFromTimers | build.go:237-266 | container timers are in command order with the prefixed text, two clock readings each |
| Build.ContainerFromCalls | build.go:239-245 | the loop makes one exec per command it reaches, running that prefixed command in the container, never more calls than commands |
| Build.ContainerFromEnds | build.go:245-248 | no error exactly when every command was timed; an error names the last call made, which failed |
| Build.ContainerFromSucceeded | build.go:245-261 | the run only appends calls, and the calls of the timed commands all succeeded |
| Build.ContainerSetup | build.go:209-268 | a set-up failure leaves no timer, no clock reading and no exec; otherwise the set-up calls come first and then only the prefixed commands, in the new container |
| Build.MissingTargetBuildsNothing | build.go:102-113 | a named target the manifest lacks becomes the zero phase: no command, no container, no environment, and success |
| Build.Configure | build.go:94-134 | the configuration's sandbox flag equals the manifest's top-level flag alone; the phase is the selected one |
| Build.EnvAssignment | build.go:121-122 | the key is the text before the first `=` and holds no `=` |
| Build.EnvAssignmentAfter | build.go:121-124 | the value is the text between the first and the second `=`, with `{PKGDIR}` replaced |
| Build.EnvAssignmentOf | build.go:121-124 | `key=value` followed by nothing or by `=...` sets `key` to `value` with `{PKGDIR}` replaced; the rest is dropped |
| Build.PkgDirExpands | build.go:124-124 | a value starting with `{PKGDIR}` starts with the package directory instead |
| Build.PkgDirEntry | build.go:120-127 | `KEY={PKGDIR}SUFFIX`, with no `=` or `{PKGDIR}` in the suffix, sets `KEY` to the package directory followed by the suffix (so `FOO={PKGDIR}/bin` in `/work/pkg` gives `/work/pkg/bin`) |
| Build.EnvAfterLastWins | build.go:120-127 | entries apply in order: a later entry's accepted assignment overrides everything before it, and a refused one changes nothing |
| Build.EnvAfterEmptyKey | build.go:121-126 | an entry `=VALUE` names the empty variable, which `os.Setenv` refuses; the error is ignored and the environment stays as it was |
| Build.EnvAfterOthers | build.go:120-127 | a variable no entry names keeps its value, or stays unset |
| Build.ApplyEnvironment | build.go:120-127 | the loop leaves the environment at `EnvAfter` of the old one, ignoring refused entries, and touches nothing else |
| Build.Execute | build.go:36-190 | no manifest: failure before anything runs; otherwise the environment is applied, the container path is taken iff the phase has an image and containers are not bypassed, else the host path, and the status is failure iff the run returned an error |
| Cli.ParseArgs | cli/build.go:180-197 | a bare argument is the target with no package; `@...` with no `:` is an error with both names empty; otherwise one `@` is dropped and the rest splits at its first `:` into a `:`-free package and a target |
| Cli.ParseArgsRoundTrip | cli/build.go:185-192 | `@p:t` with `:`-free `p` parses to `(p, t)` with no error |
| Cli.ParseArgsPrints | cli/build.go:185-192 | printing a parsed `@` argument as `@pkg:target` gives the argument back |
| Cli.Execute | cli/build.go:50-178 | no workspace, a bad argument or a missing package fails before any build; otherwise the chosen package is built with the command's flags, its timers are kept under its name, and the status is failure iff the build failed |
| Cli.NamedPackageSelected | cli/build.go:63-76 | `@p:t` builds package `p` at target `t`, or fails when the workspace lacks `p` |
| Cli.DefaultPackageSelected | cli/build.go:61-83 | no argument, a bare target and `@:target` all build the default target package |
| Flutter.BoundaryParses | buildpacks/flutter.go:140-140 | the boundary `v1.17.0` parses as version 1.17.0 |
| Flutter.BelowBoundaryIff | buildpacks/flutter.go:148-153 | a version sorts below the boundary iff it is invalid or semantically below 1.17.0 |
| Flutter.DownloadUrlVersionPrefix | buildpacks/flutter.go:139-156 | the result starts with `v` iff the `v`-prefixed version sorts below 1.17.0; then it is that version, else that version without its `v` |
| Flutter.DownloadUrlVersionIgnoresLeadingV | buildpacks/flutter.go:143-146 | `1.12.13` and `v1.12.13` give the same result |
| Flutter.DownloadUrlVersionIdempotent | buildpacks/flutter.go:139-156 | applying the rule to its own result changes nothing |
| Flutter.ParsesV190 | buildpacks/flutter.go:149-149 | `v1.9.0` parses as version 1.9.0 |
| Flutter.TextOrderMisleads | buildpacks/flutter.go:125-130 | lexically `v1.17.0` sorts before `v1.9.0` |
| Flutter.OldReleaseKeepsV | buildpacks/flutter.go:149-150 | yet `1.9.0` keeps its `v` (numeric comparison) |
| Flutter.BoundaryDropsV | buildpacks/flutter.go:149-153 | `1.17.0` and `v1.17.0` both give `1.17.0` |
| Flutter.HotfixKeepsV | buildpacks/flutter.go:127-128 | `v1.12.13+hotfix.9` stays `v`-prefixed: build metadata does not move it across |
| Flutter.VersionWithoutChannel | buildpacks/flutter.go:47-54 | without `_` the version is unchanged and the channel is `stable` |
| Flutter.VersionWithChannel | buildpacks/flutter.go:51-53 | `v_ch` gives version `v` on channel `ch` |
| Flutter.VersionWithExtraUnderscores | buildpacks/flutter.go:49-50 | with more than two parts only the first is kept and the channel stays `stable` |
| Flutter.AsMap | buildpacks/flutter.go:56-68 | every template field reads the value it was given |
| Flutter.UrlTemplateRendersTo | buildpacks/flutter.go:15-15 | the template renders as its literal pieces joined with the field values |
| Flutter.UrlTemplateRenders | buildpacks/flutter.go:69-69 | the same from an empty output |
| Flutter.DownloadUrlShape | buildpacks/flutter.go:32-72 | the URL spelled out: channel and OS folders, `flutter_OS_VERSION-CHANNEL.EXT`, `darwin` as `macos` with `zip`, else `tar.xz` |
| Flutter.DownloadUrlIgnoresArch | buildpacks/flutter.go:38-40 | the architecture, normalised or not, never changes the URL |
| Flutter.InstallDirInjective | buildpacks/flutter.go:96-96 | distinct versions never share an install directory |
| Flutter.Install | buildpacks/flutter.go:93-123 | an existing `flutter` directory is returned with nothing done; else download, then unpack into the install directory; a failure of either returns `""` and the error |
| Flutter.Setup | buildpacks/flutter.go:85-91 | PATH becomes `flutterDir/bin:` + old PATH, the change is logged, and nothing else changes |
| Gradle.ArchiveFile | buildpacks/build_gradle.go:32-34 | `apache-gradle-VERSION-bin.tar.gz`, with the version at its fixed position |
| Gradle.UrlData | buildpacks/build_gradle.go:37-47 | the template data's `Version` field is the tool's version |
| Gradle.DownloadUrlIs | buildpacks/build_gradle.go:36-52 | the URL is `https://services.gradle.org/distributions/gradle-VERSION-bin.zip`; OS, arch and extension never appear |
| Gradle.GradleDirInjective | buildpacks/build_gradle.go:63-69 | within one cache directory, distinct versions never share a Gradle directory |
| Gradle.Setup | buildpacks/build_gradle.go:71-85 | PATH becomes `GradleDir/bin:` + old PATH and GRADLE_USER_HOME the package's Gradle home; no other variable changes |
| Gradle.Install | buildpacks/build_gradle.go:88-113 | nothing when the Gradle directory exists; else download, then unpack into the install directory (not the Gradle directory); the first failure is returned |
| RLang.ArchiveFile | buildpacks/rlang.go:29-31 | `R-VERSION.tar.gz` |
| RLang.DownloadUrlFolder | buildpacks/rlang.go:33-45 | the URL is the mirror, `/R-MAJOR/`, then the archive name, MAJOR being the text before the first `.` |
| RLang.Setup | buildpacks/rlang.go:51-57 | PATH becomes `rlangDir/bin:` + old PATH, the change is logged; it never fails |
| RLang.UnpackSources | buildpacks/rlang.go:83-92 | the sources are unpacked only when the source directory is absent |
| RLang.Build | buildpacks/rlang.go:94-105 | the prefix is created, then configure, make and make install run in that order in the source directory |
| RLang.Install | buildpacks/rlang.go:59-108 | an existing prefix is returned at once; a download or unpack failure returns `""` and the error; otherwise the build runs and the prefix is returned whatever its outcome |
| Maven.ArchiveFile | buildpacks/maven.go:32-34 | `apache-maven-VERSION-bin.tar.gz` |
| Maven.DownloadUrlDoubleSlash | buildpacks/maven.go:36-44 | every URL contains `maven//maven-`, because the mirror already ends in `/` |
| Maven.DownloadUrlFolder | buildpacks/maven.go:36-49 | the folder is `maven-MAJOR`, MAJOR being the text before the first `.` |
| Maven.MavenDirInjective | buildpacks/maven.go:55-61 | distinct versions never share a Maven directory |
| Maven.Setup | buildpacks/maven.go:63-72 | PATH becomes `MavenDir/bin:` + old PATH; only PATH changes |
| Maven.Install | buildpacks/maven.go:75-99 | nothing when the Maven directory exists; else download, then unpack into the install directory; the first failure is returned |
| Toolchain.MajorVersion | buildpacks/build_gradle.go:54-57 | the major version is a `.`-free prefix of the version, the whole version or the text up to its first `.` |
| Toolchain.MajorVersionOf | buildpacks/maven.go:46-49 | the major version of `MAJOR.REST` is `MAJOR` |
| Toolchain.InstallArchive | buildpacks/build_gradle.go:88-113 | the shared check, download and unpack step of the Gradle and Maven installs |
| InstallTarget.Machine.PathExists | buildpacks/flutter.go:99-99 | true exactly for existing paths |
| InstallTarget.Machine.DownloadFile | buildpacks/flutter.go:111-111 | the download's result is the oracle's; it is logged, nothing else changes |
| InstallTarget.Machine.Unarchive | buildpacks/flutter.go:116-116 | the extraction's paths are added and its success returned |
| InstallTarget.Machine.MkdirAsNeeded | buildpacks/rlang.go:94-94 | the directory then exists |
| InstallTarget.Machine.Run | buildpacks/rlang.go:95-105 | the process is logged; the callers ignore its outcome |
| InstallTarget.Machine.PrependToPath | buildpacks/rlang.go:54-54 | PATH becomes the directory, `:`, then the old PATH, and the change is logged |
| InstallTarget.Machine.GetEnv | buildpacks/build_gradle.go:76-76 | an unset variable reads as empty |
| InstallTarget.Machine.SetEnv | buildpacks/build_gradle.go:79-79 | exactly one variable changes |
| Template.RenderUsesOnlyRefs | buildpacks/build_gradle.go:36-52 | data fields the template does not reference cannot change its output |
| Template.RenderIgnoresUnreferenced | buildpacks/flutter.go:56-68 | changing one field the template does not reference leaves the rendered text as it was |
| Semver.Parse | buildpacks/flutter.go:143-149 | a string that parses starts with `v` followed by a digit |
| Semver.ParseNumber | buildpacks/flutter.go:149-149 | a parsed number is a maximal run of digits |
| Semver.ParseSuffix | buildpacks/flutter.go:149-149 | the suffix keeps the three numbers; an empty suffix gives a plain release |
| Semver.ParseDotted | buildpacks/flutter.go:149-149 | `vMAJOR.MINOR.PATCH` followed by a suffix parses its three numbers and leaves the suffix to `ParseSuffix` |
| Semver.Compare | buildpacks/flutter.go:149-149 | the result is -1, 0 or 1; an invalid string sorts below every valid one and equal to every invalid one |
| Semver.CompareAntisymmetric | buildpacks/flutter.go:149-149 | swapping the operands negates the result |
| Semver.CompareReflexive | buildpacks/flutter.go:149-149 | every string compares equal to itself |
| Semver.PrecedenceIgnoresBuild | buildpacks/flutter.go:127-128 | build metadata takes no part in precedence |
| Semver.ParseSuffixBuild | buildpacks/flutter.go:149-149 | a well-formed `+BUILD` after the prerelease only sets the build field of what the suffix parses to |
| Semver.CompareIgnoresBuild | buildpacks/flutter.go:127-128 | appending `+BUILD` to `vMAJOR.MINOR.PATCH[-PRE]` keeps the string valid exactly when it was, and `semver.Compare` against any string gives the same result |
| Semver.LexLessTotal | buildpacks/flutter.go:125-130 | of two distinct strings exactly one is lexically smaller |
| Text.IndexOf | build.go:121-121 | the first occurrence of a character, or the length when there is none |
| Text.Split | build.go:121-122 | the first piece is the text before the first separator; no piece contains the separator |
| Text.SplitFirst | build.go:286-286 | `SplitN(_, _, 2)`: one piece iff no separator, else the text on each side of the first one |
| Text.TrimLeft | buildpacks/flutter.go:152-152 | every leading occurrence of the character is removed and no more |
| Text.TrimPrefix | cli/build.go:185-185 | one leading prefix is removed when present |
| Text.ReplaceAllAbsent | build.go:124-124 | a text without `{PKGDIR}` is left as it is |
| Text.PathJoinInjective | buildpacks/build_gradle.go:64-64 | joining the same directory with two names gives the same path only for equal names |

## Left out

- Output duplication is not modelled: the pipe, the draining goroutine and the log buffer (build.go:41-64, cli/build.go:130-164). It is concurrent I/O on OS file handles.
- Log upload (`UploadBuildLogsToAPI`) and reading the upload setting are not modelled: they are an HTTP request and configuration I/O.
- Printing, time formatting, durations, the sleeps and the summary table are not modelled. `Execute`'s own start and end clock readings are only printed and are not modelled either.
- Loading the workspace and the manifest is not modelled: `Build.Execute` takes the manifest (or its absence), the target package name and the package directory as parameters, and `Cli.Execute` takes the workspace.
- `SetupBuildDependencies` is not modelled: it provisions the tools; the providers it calls are modelled on their own.
- The package build that `Cli.Execute` calls (`pkg.Build`) is a parameter: its code is not part of this model.
- The executors, the container runtime and the clock are world oracles. The error text of a failure is reduced to the call that failed.
- Build.EnvAssignment: an entry without `=` panics in the code (index out of range); the model makes `=` a precondition (`EnvWellFormed`).
- `filepath.Join` is modelled as joining with `/` without `Clean` normalisation.
- Text.PathJoinInjective: holds for that join only; under Go's `Clean` two names such as `2/` and `2` give the same directory.
- Flutter.InstallDirInjective: holds for that join only; under Go's `Clean` two names such as `2/` and `2` give the same directory.
- Gradle.GradleDirInjective: holds for that join only; under Go's `Clean` two names such as `2/` and `2` give the same directory.
- Maven.MavenDirInjective: holds for that join only; under Go's `Clean` two names such as `2/` and `2` give the same directory.
- The Go `text/template` engine is not modelled: the constant templates are written out, already parsed, and rendering concatenates their pieces.
- The URL-error branches of `Install` in flutter.go (105-108) and rlang.go (71-74) are not modelled: with the constant templates these can never fail.
- Gradle.Install, Gradle.Setup, Maven.Install, Maven.Setup: these act on the host (`os.Stat`, `os.Getenv`/`os.Setenv`, `archiver.Unarchive`, and for Maven the package-level `ToolsDir()`), not on the install target. The model runs them on the same `Machine` as the install target, so host and target share one set of paths, one environment and one tools directory; a target that differs from the host is not captured.
- The download cache behind `DownloadFileWithCache` is not modelled: the Gradle and Maven downloads use the same download oracle as the others.
- In the R install, the outcome of `configure`, `make` and `make install` is not modelled beyond their order and directory, because the code ignores it.
- The `Exec` and `Package` phases of the manifest types are not modelled: the build command never reads them.
- `OS()` and `Arch()` detection are parameters.
- InstallTarget.Machine.MkdirAsNeeded: the model takes creating the directory to succeed; rlang.go:94 ignores the error the call returns.
- InstallTarget.Machine.PrependToPath: the install target's implementation is not part of this model; it is taken to prepend to PATH with a `:` separator, as the Gradle and Maven `Setup` do with `os.Setenv`.
- InstallTarget.Machine.SetEnv: `os.Setenv` refusing a variable is not modelled here, because its callers pass the constant keys `PATH` and `GRADLE_USER_HOME`; a NUL in an installation path would be refused by the system and is not captured.
- `os.Setenv`'s rules are those of Unix systems; Windows' differ and are not modelled.
