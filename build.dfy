/**
 * The `build` command of the main package: which build phase of the
 * manifest runs, the environment it sets, and the two ways its commands are
 * executed (on the host, directly or in a sandbox, or inside a build
 * container), each producing one timer per completed command.
 *
 * Everything that leaves the process — running a command, talking to the
 * container engine, reading the clock — goes through a `Runtime`, whose
 * answers are fixed by a `World` of oracles and which records every call
 * made on it.
 */
module Build {
  import opened Wrappers
  import opened Text
  import opened Types

  /** What one run of the build commands needs. */
  datatype BuildConfiguration = BuildConfiguration(
    target: BuildPhase,
    targetDir: string,
    sandboxed: bool,
    execPrefix: string)

  /** A completed command with the clock readings taken before and after it. */
  datatype CommandTimer = CommandTimer(command: string, startTime: nat, endTime: nat)

  /** The container options of a package's build container. */
  datatype ContainerOpts = ContainerOpts(container: ContainerDefinition, packageName: string)

  /** A call that leaves the process. */
  datatype Call =
    | HostExec(command: string, dir: string)
    | SandboxExec(command: string, dir: string)
    | FindContainer(opts: ContainerOpts)
    | RemoveContainer(id: string)
    | CreateContainer(opts: ContainerOpts)
    | StartContainer(id: string)
    | ContainerExec(id: string, command: string)

  /** A build error names the call that failed. */
  datatype BuildError = Failed(call: Call)

  /**
   * The outside world: whether the n-th call made succeeds, the container a
   * search finds, the id a new container gets, and the value of the n-th
   * clock reading.
   */
  datatype World = World(
    succeeds: (nat, Call) -> bool,
    existing: ContainerOpts -> Option<string>,
    newId: ContainerOpts -> string,
    clock: nat -> nat)

  class Runtime {
    /** Every call made so far, in order. */
    var calls: seq<Call>
    /** How many times the clock has been read. */
    var readings: nat
    /** The process environment. */
    var env: map<string, string>
    const world: World

    constructor (world: World, env0: map<string, string>)
      ensures calls == [] && readings == 0 && env == env0 && this.world == world
    {
      calls, readings, env := [], 0, env0;
      this.world := world;
    }

    /** `time.Now()`. */
    method Now() returns (t: nat)
      modifies this`readings
      ensures t == world.clock(old(readings)) && readings == old(readings) + 1
    {
      t := world.clock(readings);
      readings := readings + 1;
    }

    /** Makes a call; whether it succeeds is the world's answer for that position. */
    method Perform(c: Call) returns (ok: bool)
      modifies this`calls
      ensures ok == world.succeeds(|old(calls)|, c)
      ensures calls == old(calls) + [c]
    {
      ok := world.succeeds(|calls|, c);
      calls := calls + [c];
    }

    /**
     * `os.Setenv`: a variable the system refuses leaves the environment as
     * it was and is reported by `ok` being false.
     */
    method SetEnv(key: string, value: string) returns (ok: bool)
      modifies this`env
      ensures ok <==> SetenvAccepts(key, value)
      ensures env == if ok then old(env)[key := value] else old(env)
    {
      ok := SetenvAccepts(key, value);
      if ok {
        env := env[key := value];
      }
    }
  }

  // ---------------------------------------------------------------------
  // Running the commands on the host

  /** The command text actually run: the exec prefix, a space, the command. */
  function Prefixed(prefix: string, cmd: string): string {
    if |prefix| > 0 then prefix + " " + cmd else cmd
  }

  /** A command that only changes the directory later commands run in. */
  predicate IsCd(cmd: string) {
    HasPrefix(cmd, "cd ")
  }

  /** The directory named by a `cd` command: everything after `cd `. */
  function CdTarget(cmd: string): string
    requires IsCd(cmd)
  {
    cmd[3..]
  }

  /** That is the text after the command's first space, the second piece of `SplitN(cmd, " ", 2)`. */
  lemma CdTargetIsSecondPiece(cmd: string)
    requires IsCd(cmd)
    ensures |SplitFirst(cmd, ' ')| == 2 && SplitFirst(cmd, ' ')[1] == CdTarget(cmd)
  {
    assert cmd == "cd" + [' '] + cmd[3..];
    IndexOfAfter("cd", ' ', cmd[3..]);
  }

  /**
   * The `cd` test sees the prefixed text: under an exec prefix that does not
   * itself start with `c`, a `cd` command is run like any other command,
   * and the timer records the prefixed text.
   */
  lemma PrefixHidesCd(prefix: string, cmd: string)
    requires prefix != [] && prefix[0] != 'c'
    ensures !IsCd(Prefixed(prefix, cmd))
    ensures Prefixed(prefix, cmd) == prefix + " " + cmd
  {
    assert Prefixed(prefix, cmd)[0] == prefix[0];
  }

  /** The directory a non-`cd` command runs in: the build root is joined on again each time. */
  function StepDir(phase: BuildPhase, dir: string): string {
    if phase.root != "" then PathJoin(dir, phase.root) else dir
  }

  /** The executor a non-`cd` command goes to. */
  function HostCall(cfg: BuildConfiguration, cmd: string, dir: string): Call {
    if cfg.sandboxed then SandboxExec(cmd, dir) else HostExec(cmd, dir)
  }

  /** The timer of a command whose start is clock reading `n` and whose end is reading `n + 1`. */
  function Timer(w: World, cmd: string, n: nat): CommandTimer {
    CommandTimer(cmd, w.clock(n), w.clock(n + 1))
  }

  /** The outcome of running commands: timers, error, calls made and clock readings taken. */
  datatype Run = Run(timers: seq<CommandTimer>, err: Option<BuildError>, calls: seq<Call>, readings: nat)

  function Prepend(t: CommandTimer, r: Run): Run {
    r.(timers := [t] + r.timers)
  }

  /**
   * Running `cmds` on the host from directory `dir`, with `calls` made and
   * `readings` clock readings taken before: each command reads the clock,
   * a `cd` moves the directory, any other command is run in the (re-rooted)
   * directory and stops everything when it fails; a completed command reads
   * the clock again and gets its timer.
   */
  function RunFrom(cfg: BuildConfiguration, w: World, cmds: seq<string>, dir: string,
                   calls: seq<Call>, readings: nat): Run
    decreases |cmds|
  {
    if cmds == [] then Run([], None, calls, readings)
    else
      var cmd := Prefixed(cfg.execPrefix, cmds[0]);
      if IsCd(cmd) then
        Prepend(Timer(w, cmd, readings),
                RunFrom(cfg, w, cmds[1..], PathJoin(dir, CdTarget(cmd)), calls, readings + 2))
      else
        var d := StepDir(cfg.target, dir);
        var call := HostCall(cfg, cmd, d);
        if !w.succeeds(|calls|, call) then Run([], Some(Failed(call)), calls + [call], readings + 1)
        else Prepend(Timer(w, cmd, readings),
                     RunFrom(cfg, w, cmds[1..], d, calls + [call], readings + 2))
  }

  /**
   * One command of `RunCommands`: reads the clock, then either moves the
   * directory (`cd`) or runs the command in the re-rooted directory; when
   * that did not fail it reads the clock again.
   */
  method RunStep(rt: Runtime, cfg: BuildConfiguration, cmd: string, dir: string)
    returns (ok: bool, dir': string, timer: CommandTimer)
    modifies rt`calls, rt`readings
    ensures dir' == if IsCd(cmd) then PathJoin(dir, CdTarget(cmd)) else StepDir(cfg.target, dir)
    ensures var call := HostCall(cfg, cmd, dir');
      && ok == (IsCd(cmd) || rt.world.succeeds(|old(rt.calls)|, call))
      && rt.calls == (if IsCd(cmd) then old(rt.calls) else old(rt.calls) + [call])
    ensures rt.readings == old(rt.readings) + (if ok then 2 else 1)
    ensures ok ==> timer == Timer(rt.world, cmd, old(rt.readings))
  {
    var start := rt.Now();
    dir', timer := dir, CommandTimer(cmd, start, start);
    if IsCd(cmd) {
      dir' := PathJoin(dir, CdTarget(cmd));
    } else {
      if cfg.target.root != "" {
        dir' := PathJoin(dir, cfg.target.root);
      }
      ok := rt.Perform(HostCall(cfg, cmd, dir'));
      if !ok {
        return;
      }
    }
    ok := true;
    var end := rt.Now();
    timer := CommandTimer(cmd, start, end);
  }

  /** The i-th command of `RunCommands`, seen against the specification of the rest of the run. */
  method RunCommand(rt: Runtime, cfg: BuildConfiguration, cmds: seq<string>, i: nat, dir: string)
    returns (err: Option<BuildError>, dir': string, timer: CommandTimer)
    requires i < |cmds|
    modifies rt`calls, rt`readings
    ensures err.None? ==>
      RunFrom(cfg, rt.world, cmds[i..], dir, old(rt.calls), old(rt.readings))
        == Prepend(timer, RunFrom(cfg, rt.world, cmds[i + 1..], dir', rt.calls, rt.readings))
    ensures err.Some? ==>
      RunFrom(cfg, rt.world, cmds[i..], dir, old(rt.calls), old(rt.readings)) == Run([], err, rt.calls, rt.readings)
  {
    ghost var c0, n0 := rt.calls, rt.readings;
    var cmd := Prefixed(cfg.execPrefix, cmds[i]);
    var ok;
    ok, dir', timer := RunStep(rt, cfg, cmd, dir);
    assert cmds[i..] == [cmds[i]] + cmds[i + 1..];
    RunFromStep(cfg, rt.world, cmds[i], cmds[i + 1..], dir, c0, n0);
    err := if ok then None else Some(Failed(HostCall(cfg, cmd, dir')));
  }

  /** `RunCommands`: the build phase's commands, one after the other, on the host. */
  method RunCommands(rt: Runtime, cfg: BuildConfiguration) returns (stepTimes: seq<CommandTimer>, err: Option<BuildError>)
    modifies rt`calls, rt`readings
    ensures var r := RunFrom(cfg, rt.world, cfg.target.commands, cfg.targetDir, old(rt.calls), old(rt.readings));
      stepTimes == r.timers && err == r.err && rt.calls == r.calls && rt.readings == r.readings
  {
    var cmds := cfg.target.commands;
    var dir := cfg.targetDir;
    ghost var whole := RunFrom(cfg, rt.world, cmds, dir, rt.calls, rt.readings);
    stepTimes, err := [], None;
    var i := 0;
    while i < |cmds|
      invariant i <= |cmds|
      invariant var rest := RunFrom(cfg, rt.world, cmds[i..], dir, rt.calls, rt.readings);
        whole == rest.(timers := stepTimes + rest.timers)
    {
      var e, timer;
      e, dir, timer := RunCommand(rt, cfg, cmds, i, dir);
      if e.Some? {
        return stepTimes, e;
      }
      ghost var after := RunFrom(cfg, rt.world, cmds[i + 1..], dir, rt.calls, rt.readings);
      assert stepTimes + ([timer] + after.timers) == (stepTimes + [timer]) + after.timers;
      stepTimes := stepTimes + [timer];
      i := i + 1;
    }
  }

  /** One command of a host run. */
  lemma RunFromStep(cfg: BuildConfiguration, w: World, c: string, more: seq<string>, dir: string,
                    calls: seq<Call>, readings: nat)
    ensures var cmd := Prefixed(cfg.execPrefix, c);
      IsCd(cmd) ==>
        RunFrom(cfg, w, [c] + more, dir, calls, readings) == Prepend(Timer(w, cmd, readings), RunFrom(cfg, w, more, PathJoin(dir, CdTarget(cmd)), calls, readings + 2))
    ensures var cmd := Prefixed(cfg.execPrefix, c);
      var call := HostCall(cfg, cmd, StepDir(cfg.target, dir));
      !IsCd(cmd) && w.succeeds(|calls|, call) ==>
        RunFrom(cfg, w, [c] + more, dir, calls, readings) == Prepend(Timer(w, cmd, readings), RunFrom(cfg, w, more, StepDir(cfg.target, dir), calls + [call], readings + 2))
    ensures var cmd := Prefixed(cfg.execPrefix, c);
      var call := HostCall(cfg, cmd, StepDir(cfg.target, dir));
      !IsCd(cmd) && !w.succeeds(|calls|, call) ==>
        RunFrom(cfg, w, [c] + more, dir, calls, readings) == Run([], Some(Failed(call)), calls + [call], readings + 1)
  {
    assert ([c] + more)[0] == c && ([c] + more)[1..] == more;
  }

  /** `timers` times the first commands of `cmds`, in order, from clock reading `n` on. */
  ghost predicate TimesInOrder(w: World, prefix: string, cmds: seq<string>, n: nat, timers: seq<CommandTimer>) {
    |timers| <= |cmds|
    && forall k :: 0 <= k < |timers| ==> timers[k] == Timer(w, Prefixed(prefix, cmds[k]), n + 2 * k)
  }

  lemma TimesInOrderCons(w: World, prefix: string, cmds: seq<string>, n: nat, timers: seq<CommandTimer>)
    requires cmds != [] && TimesInOrder(w, prefix, cmds[1..], n + 2, timers)
    ensures TimesInOrder(w, prefix, cmds, n, [Timer(w, Prefixed(prefix, cmds[0]), n)] + timers)
  {
    var ts := [Timer(w, Prefixed(prefix, cmds[0]), n)] + timers;
    forall k | 0 < k < |ts|
      ensures ts[k] == Timer(w, Prefixed(prefix, cmds[k]), n + 2 * k)
    {
      assert ts[k] == timers[k - 1] && cmds[1..][k - 1] == cmds[k];
    }
  }

  /**
   * Every completed command has a timer, in order; the k-th carries the
   * prefixed command text and the clock readings 2k and 2k + 1 after the
   * start. A failed command adds one reading and no timer.
   */
  lemma {:induction false} RunFromTimers(cfg: BuildConfiguration, w: World, cmds: seq<string>, dir: string,
                                         calls: seq<Call>, readings: nat)
    ensures var r := RunFrom(cfg, w, cmds, dir, calls, readings);
      && TimesInOrder(w, cfg.execPrefix, cmds, readings, r.timers)
      && r.readings == readings + 2 * |r.timers| + (if r.err.Some? then 1 else 0)
    decreases |cmds|
  {
    if cmds != [] {
      var cmd := Prefixed(cfg.execPrefix, cmds[0]);
      var d := if IsCd(cmd) then PathJoin(dir, CdTarget(cmd)) else StepDir(cfg.target, dir);
      var call := HostCall(cfg, cmd, d);
      if IsCd(cmd) || w.succeeds(|calls|, call) {
        var calls' := if IsCd(cmd) then calls else calls + [call];
        var rest := RunFrom(cfg, w, cmds[1..], d, calls', readings + 2);
        assert RunFrom(cfg, w, cmds, dir, calls, readings) == Prepend(Timer(w, cmd, readings), rest);
        RunFromTimers(cfg, w, cmds[1..], d, calls', readings + 2);
        TimesInOrderCons(w, cfg.execPrefix, cmds, readings, rest.timers);
      }
    }
  }

  /** The run ends without error exactly when every command got a timer; an error names the last call made. */
  lemma {:induction false} RunFromEnds(cfg: BuildConfiguration, w: World, cmds: seq<string>, dir: string,
                                       calls: seq<Call>, readings: nat)
    ensures var r := RunFrom(cfg, w, cmds, dir, calls, readings);
      && (r.err.None? <==> |r.timers| == |cmds|)
      && (r.err.Some? ==> |calls| < |r.calls| && r.err == Some(Failed(r.calls[|r.calls| - 1])))
    decreases |cmds|
  {
    if cmds != [] {
      var cmd := Prefixed(cfg.execPrefix, cmds[0]);
      var d := if IsCd(cmd) then PathJoin(dir, CdTarget(cmd)) else StepDir(cfg.target, dir);
      var call := HostCall(cfg, cmd, d);
      if IsCd(cmd) || w.succeeds(|calls|, call) {
        var calls' := if IsCd(cmd) then calls else calls + [call];
        RunFromEnds(cfg, w, cmds[1..], d, calls', readings + 2);
      }
    }
  }

  /**
   * On an error, the call that failed is the last call made, and it runs
   * the command right after the last timed one.
   */
  lemma {:induction false} RunFromFailure(cfg: BuildConfiguration, w: World, cmds: seq<string>, dir: string,
                                          calls: seq<Call>, readings: nat)
    ensures var r := RunFrom(cfg, w, cmds, dir, calls, readings);
      r.err.Some? ==>
        && |r.timers| < |cmds| && |r.calls| > 0
        && !w.succeeds(|r.calls| - 1, r.err.value.call)
        && (r.err.value.call.HostExec? || r.err.value.call.SandboxExec?)
        && r.err.value.call == HostCall(cfg, Prefixed(cfg.execPrefix, cmds[|r.timers|]), r.err.value.call.dir)
    decreases |cmds|
  {
    if cmds != [] {
      var cmd := Prefixed(cfg.execPrefix, cmds[0]);
      var d := if IsCd(cmd) then PathJoin(dir, CdTarget(cmd)) else StepDir(cfg.target, dir);
      var call := HostCall(cfg, cmd, d);
      if IsCd(cmd) || w.succeeds(|calls|, call) {
        var calls' := if IsCd(cmd) then calls else calls + [call];
        RunFromFailure(cfg, w, cmds[1..], d, calls', readings + 2);
        var rest := RunFrom(cfg, w, cmds[1..], d, calls', readings + 2);
        assert RunFrom(cfg, w, cmds, dir, calls, readings) == Prepend(Timer(w, cmd, readings), rest);
        if rest.err.Some? {
          assert cmds[1..][|rest.timers|] == cmds[|rest.timers| + 1];
        }
      }
    }
  }

  /** Every call at a position in `from..to` of `calls` succeeded. */
  ghost predicate Succeeded(w: World, calls: seq<Call>, from: nat, to: int) {
    to <= |calls| && forall j :: from <= j < to ==> w.succeeds(j, calls[j])
  }

  /** The run only adds calls, and every call it adds succeeded except an erroneous last one. */
  lemma {:induction false} RunFromSucceeded(cfg: BuildConfiguration, w: World, cmds: seq<string>, dir: string,
                                            calls: seq<Call>, readings: nat)
    ensures var r := RunFrom(cfg, w, cmds, dir, calls, readings);
      && calls <= r.calls
      && Succeeded(w, r.calls, |calls|, |r.calls| - (if r.err.Some? then 1 else 0))
    decreases |cmds|
  {
    if cmds != [] {
      var cmd := Prefixed(cfg.execPrefix, cmds[0]);
      var d := if IsCd(cmd) then PathJoin(dir, CdTarget(cmd)) else StepDir(cfg.target, dir);
      var call := HostCall(cfg, cmd, d);
      if IsCd(cmd) || w.succeeds(|calls|, call) {
        var calls' := if IsCd(cmd) then calls else calls + [call];
        var rest := RunFrom(cfg, w, cmds[1..], d, calls', readings + 2);
        RunFromSucceeded(cfg, w, cmds[1..], d, calls', readings + 2);
        assert calls <= calls' <= rest.calls;
        if !IsCd(cmd) {
          assert rest.calls[|calls|] == call;
        }
      }
    }
  }

  /**
   * The run stops at the first failing call and at nothing else: it has no
   * error exactly when every command got a timer, and then every call it
   * made succeeded; on an error the last call made is the one that failed,
   * every call before it succeeded, it runs the command right after the
   * last timed one, and nothing ran after it.
   */
  lemma RunFromOutcome(cfg: BuildConfiguration, w: World, cmds: seq<string>, dir: string,
                       calls: seq<Call>, readings: nat)
    ensures var r := RunFrom(cfg, w, cmds, dir, calls, readings);
      && calls <= r.calls
      && (r.err.None? <==> |r.timers| == |cmds|)
      && (r.err.None? ==> Succeeded(w, r.calls, |calls|, |r.calls|))
      && (r.err.Some? ==>
            && |calls| < |r.calls| && |r.timers| < |cmds|
            && r.err == Some(Failed(r.calls[|r.calls| - 1]))
            && !w.succeeds(|r.calls| - 1, r.calls[|r.calls| - 1])
            && Succeeded(w, r.calls, |calls|, |r.calls| - 1)
            && (r.err.value.call.HostExec? || r.err.value.call.SandboxExec?)
            && r.err.value.call == HostCall(cfg, Prefixed(cfg.execPrefix, cmds[|r.timers|]), r.err.value.call.dir))
  {
    RunFromEnds(cfg, w, cmds, dir, calls, readings);
    RunFromFailure(cfg, w, cmds, dir, calls, readings);
    RunFromSucceeded(cfg, w, cmds, dir, calls, readings);
  }

  /** When every call succeeds, the run ends without error and times every command. */
  lemma AllSucceedAllTimed(cfg: BuildConfiguration, w: World, cmds: seq<string>, dir: string,
                           calls: seq<Call>, readings: nat)
    requires forall n, c :: w.succeeds(n, c)
    ensures var r := RunFrom(cfg, w, cmds, dir, calls, readings);
      r.err == None && |r.timers| == |cmds|
  {
    RunFromOutcome(cfg, w, cmds, dir, calls, readings);
  }

  /**
   * The executor is chosen by the configuration and nothing else: every call
   * goes to the sandbox when the configuration is sandboxed and straight to
   * the host otherwise, and no call ever runs a `cd` command.
   */
  lemma {:induction false} RunFromExecutor(cfg: BuildConfiguration, w: World, cmds: seq<string>, dir: string,
                                           calls: seq<Call>, readings: nat)
    ensures var r := RunFrom(cfg, w, cmds, dir, calls, readings);
      && calls <= r.calls
      && forall j :: |calls| <= j < |r.calls| ==>
           && (r.calls[j].SandboxExec? || r.calls[j].HostExec?)
           && (r.calls[j].SandboxExec? <==> cfg.sandboxed)
           && !IsCd(r.calls[j].command)
    decreases |cmds|
  {
    if cmds != [] {
      var cmd := Prefixed(cfg.execPrefix, cmds[0]);
      if IsCd(cmd) {
        RunFromExecutor(cfg, w, cmds[1..], PathJoin(dir, CdTarget(cmd)), calls, readings + 2);
      } else {
        var d := StepDir(cfg.target, dir);
        var call := HostCall(cfg, cmd, d);
        if w.succeeds(|calls|, call) {
          RunFromExecutor(cfg, w, cmds[1..], d, calls + [call], readings + 2);
        }
      }
    }
  }

  /** Commands that are all `cd` reach no executor, never fail, and are all timed. */
  lemma {:induction false} CdOnlyRunsNothing(cfg: BuildConfiguration, w: World, cmds: seq<string>, dir: string,
                                             calls: seq<Call>, readings: nat)
    requires forall k :: 0 <= k < |cmds| ==> IsCd(Prefixed(cfg.execPrefix, cmds[k]))
    ensures var r := RunFrom(cfg, w, cmds, dir, calls, readings);
      r.calls == calls && r.err == None && |r.timers| == |cmds|
    decreases |cmds|
  {
    if cmds != [] {
      var cmd := Prefixed(cfg.execPrefix, cmds[0]);
      assert IsCd(cmd);
      CdOnlyRunsNothing(cfg, w, cmds[1..], PathJoin(dir, CdTarget(cmd)), calls, readings + 2);
    }
  }

  /** The directory after one command: a `cd` moves it, any other command re-roots it. */
  function NextDir(cfg: BuildConfiguration, cmd: string, dir: string): string {
    var c := Prefixed(cfg.execPrefix, cmd);
    if IsCd(c) then PathJoin(dir, CdTarget(c)) else StepDir(cfg.target, dir)
  }

  /** The call one command makes from `dir`: none for a `cd`, else its prefixed text in the next directory. */
  function CallOf(cfg: BuildConfiguration, cmd: string, dir: string): seq<Call> {
    var c := Prefixed(cfg.execPrefix, cmd);
    if IsCd(c) then [] else [HostCall(cfg, c, NextDir(cfg, cmd, dir))]
  }

  /**
   * The calls a sequence of commands makes when none of them fails: one
   * per non-`cd` command, in order, each from the directory the commands
   * before it lead to.
   */
  function CommandCalls(cfg: BuildConfiguration, cmds: seq<string>, dir: string): seq<Call>
    decreases |cmds|
  {
    if cmds == [] then [] else CallOf(cfg, cmds[0], dir) + CommandCalls(cfg, cmds[1..], NextDir(cfg, cmds[0], dir))
  }

  /** Whether the first command lets the run go on: it is a `cd`, or its call succeeds. */
  ghost predicate HeadPasses(cfg: BuildConfiguration, w: World, cmds: seq<string>, dir: string, calls: seq<Call>)
    requires cmds != []
  {
    var c := Prefixed(cfg.execPrefix, cmds[0]);
    IsCd(c) || w.succeeds(|calls|, HostCall(cfg, c, NextDir(cfg, cmds[0], dir)))
  }

  /**
   * The first command in the terms of `NextDir` and `CallOf`: when it
   * passes, the rest of the run starts from the next directory with its
   * call made; otherwise the run ends on that one call.
   */
  lemma RunFromHead(cfg: BuildConfiguration, w: World, cmds: seq<string>, dir: string,
                    calls: seq<Call>, readings: nat)
    requires cmds != []
    ensures var r := RunFrom(cfg, w, cmds, dir, calls, readings);
      var calls' := calls + CallOf(cfg, cmds[0], dir);
      if HeadPasses(cfg, w, cmds, dir, calls) then
        r == Prepend(Timer(w, Prefixed(cfg.execPrefix, cmds[0]), readings),
                     RunFrom(cfg, w, cmds[1..], NextDir(cfg, cmds[0], dir), calls', readings + 2))
      else
        |CallOf(cfg, cmds[0], dir)| == 1
        && r == Run([], Some(Failed(CallOf(cfg, cmds[0], dir)[0])), calls', readings + 1)
  {
    var c := Prefixed(cfg.execPrefix, cmds[0]);
    if IsCd(c) {
      assert CallOf(cfg, cmds[0], dir) == [];
      assert calls + [] == calls;
    } else {
      assert CallOf(cfg, cmds[0], dir) == [HostCall(cfg, c, StepDir(cfg.target, dir))];
    }
  }

  /**
   * The calls the host loop makes: the commands it reached (the timed ones
   * and, on failure, the failing one) make exactly their `CommandCalls`, so
   * each call runs the prefixed text of a non-`cd` command, in order, in the
   * re-rooted directory that the commands before it had reached.
   */
  lemma {:induction false} RunFromCalls(cfg: BuildConfiguration, w: World, cmds: seq<string>, dir: string,
                                        calls: seq<Call>, readings: nat)
    ensures var r := RunFrom(cfg, w, cmds, dir, calls, readings);
      var reached := |r.timers| + (if r.err.Some? then 1 else 0);
      reached <= |cmds| && r.calls == calls + CommandCalls(cfg, cmds[..reached], dir)
    decreases |cmds|
  {
    if cmds != [] {
      var d1 := NextDir(cfg, cmds[0], dir);
      var head := CallOf(cfg, cmds[0], dir);
      RunFromHead(cfg, w, cmds, dir, calls, readings);
      if HeadPasses(cfg, w, cmds, dir, calls) {
        RunFromCalls(cfg, w, cmds[1..], d1, calls + head, readings + 2);
        var rest := RunFrom(cfg, w, cmds[1..], d1, calls + head, readings + 2);
        var m := |rest.timers| + (if rest.err.Some? then 1 else 0);
        assert cmds[..m + 1][1..] == cmds[1..][..m];
        assert (calls + head) + CommandCalls(cfg, cmds[1..][..m], d1) == calls + (head + CommandCalls(cfg, cmds[1..][..m], d1));
      } else {
        assert cmds[..1][1..] == [];
      }
    }
  }

  /** `dir` with `root` joined on `n` times. */
  function Rooted(dir: string, root: string, n: nat): string {
    if n == 0 then dir else PathJoin(Rooted(dir, root, n - 1), root)
  }

  /**
   * Without `cd` commands, the build root is joined on once more for every
   * command: the n-th command runs in the target directory with the root
   * joined on n times.
   */
  lemma {:induction false} RootAccumulates(cfg: BuildConfiguration, w: World, cmds: seq<string>, dir: string,
                                           calls: seq<Call>, readings: nat)
    requires forall k :: 0 <= k < |cmds| ==> !IsCd(Prefixed(cfg.execPrefix, cmds[k]))
    ensures var r := RunFrom(cfg, w, cmds, dir, calls, readings);
      && calls <= r.calls
      && forall j :: |calls| <= j < |r.calls| ==>
           && (r.calls[j].SandboxExec? || r.calls[j].HostExec?)
           && r.calls[j].dir == Rooted(dir, cfg.target.root, j - |calls| + 1)
    decreases |cmds|
  {
    if cmds != [] {
      var cmd := Prefixed(cfg.execPrefix, cmds[0]);
      assert !IsCd(cmd);
      var d := StepDir(cfg.target, dir);
      assert d == Rooted(dir, cfg.target.root, 1);
      var call := HostCall(cfg, cmd, d);
      if w.succeeds(|calls|, call) {
        RootAccumulates(cfg, w, cmds[1..], d, calls + [call], readings + 2);
        var r := RunFrom(cfg, w, cmds[1..], d, calls + [call], readings + 2);
        RootedCalls(dir, cfg.target.root, calls, call, r.calls);
      }
    }
  }

  /** The step of `RootAccumulates`: one call in the once-rooted directory before calls rooted from there. */
  lemma RootedCalls(dir: string, root: string, calls: seq<Call>, call: Call, after: seq<Call>)
    requires (call.SandboxExec? || call.HostExec?) && call.dir == Rooted(dir, root, 1)
    requires calls + [call] <= after
    requires forall j :: |calls + [call]| <= j < |after| ==>
      && (after[j].SandboxExec? || after[j].HostExec?)
      && after[j].dir == Rooted(Rooted(dir, root, 1), root, j - |calls + [call]| + 1)
    ensures calls <= after
    ensures forall j :: |calls| <= j < |after| ==>
      && (after[j].SandboxExec? || after[j].HostExec?)
      && after[j].dir == Rooted(dir, root, j - |calls| + 1)
  {
    assert after[|calls|] == (calls + [call])[|calls|] == call;
    forall j | |calls| + 1 <= j < |after|
      ensures after[j].dir == Rooted(dir, root, j - |calls| + 1)
    {
      RootedShift(dir, root, j - |calls|);
    }
  }

  /** Joining once and then n times is joining n + 1 times. */
  lemma {:induction false} RootedShift(dir: string, root: string, n: nat)
    ensures Rooted(Rooted(dir, root, 1), root, n) == Rooted(dir, root, n + 1)
  {
    if n > 0 {
      RootedShift(dir, root, n - 1);
    }
  }

  ghost predicate Monotone(clock: nat -> nat) {
    forall a: nat, b: nat :: a <= b ==> clock(a) <= clock(b)
  }

  /** With a clock that never goes back, every timer ends no earlier than it starts, and no earlier than any timer before it. */
  lemma TimersOrdered(cfg: BuildConfiguration, w: World, cmds: seq<string>, dir: string,
                      calls: seq<Call>, readings: nat)
    requires Monotone(w.clock)
    ensures var r := RunFrom(cfg, w, cmds, dir, calls, readings);
      && (forall k :: 0 <= k < |r.timers| ==> r.timers[k].startTime <= r.timers[k].endTime)
      && (forall i, k :: 0 <= i < k < |r.timers| ==> r.timers[i].endTime <= r.timers[k].startTime)
  {
    RunFromTimers(cfg, w, cmds, dir, calls, readings);
  }

  // ---------------------------------------------------------------------
  // Running the commands in a build container

  /** The container's command loop: like the host loop, without `cd` or a build root. */
  function ContainerFrom(prefix: string, w: World, id: string, cmds: seq<string>,
                         calls: seq<Call>, readings: nat): Run
    decreases |cmds|
  {
    if cmds == [] then Run([], None, calls, readings)
    else
      var cmd := Prefixed(prefix, cmds[0]);
      var call := ContainerExec(id, cmd);
      if !w.succeeds(|calls|, call) then Run([], Some(Failed(call)), calls + [call], readings + 1)
      else Prepend(Timer(w, cmd, readings), ContainerFrom(prefix, w, id, cmds[1..], calls + [call], readings + 2))
  }

  /**
   * The container set-up of `RunCommandsInContainer`: find the package's
   * container, remove it if one exists, create a new one and start it. The
   * result is the call that failed, if any, and the calls made.
   */
  function SetUp(opts: ContainerOpts, w: World, calls: seq<Call>): (Option<Call>, seq<Call>) {
    var find := FindContainer(opts);
    var c1 := calls + [find];
    if !w.succeeds(|calls|, find) then (Some(find), c1)
    else
      var existing := w.existing(opts);
      var remove := RemoveContainer(if existing.Some? then existing.value else "");
      if existing.Some? && !w.succeeds(|c1|, remove) then (Some(remove), c1 + [remove])
      else
        var c2 := if existing.Some? then c1 + [remove] else c1;
        var create := CreateContainer(opts);
        var c3 := c2 + [create];
        if !w.succeeds(|c2|, create) then (Some(create), c3)
        else
          var start := StartContainer(w.newId(opts));
          var c4 := c3 + [start];
          if !w.succeeds(|c3|, start) then (Some(start), c4) else (None, c4)
  }

  /**
   * `RunCommandsInContainer`: a failing set-up step ends the build before
   * any command runs; otherwise the commands run in the new container.
   */
  function InContainer(cfg: BuildConfiguration, opts: ContainerOpts, w: World, calls: seq<Call>, readings: nat): Run {
    var (failed, made) := SetUp(opts, w, calls);
    if failed.Some? then Run([], Some(Failed(failed.value)), made, readings)
    else ContainerFrom(cfg.execPrefix, w, w.newId(opts), cfg.target.commands, made, readings)
  }

  /** The set-up steps, one after the other, stopping at the first that fails. */
  method SetUpContainer(rt: Runtime, opts: ContainerOpts) returns (failed: Option<Call>)
    modifies rt`calls
    ensures (failed, rt.calls) == SetUp(opts, rt.world, old(rt.calls))
  {
    var found := rt.Perform(FindContainer(opts));
    if !found {
      return Some(FindContainer(opts));
    }
    var existing := rt.world.existing(opts);
    if existing.Some? {
      var removed := rt.Perform(RemoveContainer(existing.value));
      if !removed {
        return Some(RemoveContainer(existing.value));
      }
    }
    var created := rt.Perform(CreateContainer(opts));
    if !created {
      return Some(CreateContainer(opts));
    }
    var started := rt.Perform(StartContainer(rt.world.newId(opts)));
    if !started {
      return Some(StartContainer(rt.world.newId(opts)));
    }
    return None;
  }

  /** The container commands, one after the other, in the container with id `id`. */
  method RunInContainer(rt: Runtime, prefix: string, id: string, cmds: seq<string>)
    returns (stepTimes: seq<CommandTimer>, err: Option<BuildError>)
    modifies rt`calls, rt`readings
    ensures var r := ContainerFrom(prefix, rt.world, id, cmds, old(rt.calls), old(rt.readings));
      stepTimes == r.timers && err == r.err && rt.calls == r.calls && rt.readings == r.readings
  {
    ghost var whole := ContainerFrom(prefix, rt.world, id, cmds, rt.calls, rt.readings);
    stepTimes, err := [], None;
    var i := 0;
    while i < |cmds|
      invariant i <= |cmds|
      invariant var rest := ContainerFrom(prefix, rt.world, id, cmds[i..], rt.calls, rt.readings);
        whole == rest.(timers := stepTimes + rest.timers)
    {
      var start := rt.Now();
      var cmd := Prefixed(prefix, cmds[i]);
      var ok := rt.Perform(ContainerExec(id, cmd));
      if !ok {
        return stepTimes, Some(Failed(ContainerExec(id, cmd)));
      }
      var end := rt.Now();
      assert Timer(rt.world, cmd, rt.readings - 2) == CommandTimer(cmd, start, end);
      assert cmds[i..][1..] == cmds[i + 1..];
      stepTimes := stepTimes + [CommandTimer(cmd, start, end)];
      i := i + 1;
    }
  }

  /** `RunCommandsInContainer`. */
  method RunCommandsInContainer(rt: Runtime, cfg: BuildConfiguration, opts: ContainerOpts)
    returns (stepTimes: seq<CommandTimer>, err: Option<BuildError>)
    modifies rt`calls, rt`readings
    ensures var r := InContainer(cfg, opts, rt.world, old(rt.calls), old(rt.readings));
      stepTimes == r.timers && err == r.err && rt.calls == r.calls && rt.readings == r.readings
  {
    var failed := SetUpContainer(rt, opts);
    if failed.Some? {
      return [], Some(Failed(failed.value));
    }
    stepTimes, err := RunInContainer(rt, cfg.execPrefix, rt.world.newId(opts), cfg.target.commands);
  }

  /** Every completed container command has a timer, in order, as on the host. */
  lemma {:induction false} ContainerFromTimers(prefix: string, w: World, id: string, cmds: seq<string>,
                                               calls: seq<Call>, readings: nat)
    ensures var r := ContainerFrom(prefix, w, id, cmds, calls, readings);
      && TimesInOrder(w, prefix, cmds, readings, r.timers)
      && r.readings == readings + 2 * |r.timers| + (if r.err.Some? then 1 else 0)
    decreases |cmds|
  {
    if cmds != [] {
      var cmd := Prefixed(prefix, cmds[0]);
      var call := ContainerExec(id, cmd);
      if w.succeeds(|calls|, call) {
        var rest := ContainerFrom(prefix, w, id, cmds[1..], calls + [call], readings + 2);
        ContainerFromTimers(prefix, w, id, cmds[1..], calls + [call], readings + 2);
        TimesInOrderCons(w, prefix, cmds, readings, rest.timers);
      }
    }
  }

  /**
   * The container loop makes one call per command it reaches, each running
   * that command, prefixed, in the container `id`.
   */
  lemma {:induction false} ContainerFromCalls(prefix: string, w: World, id: string, cmds: seq<string>,
                                              calls: seq<Call>, readings: nat)
    ensures var r := ContainerFrom(prefix, w, id, cmds, calls, readings);
      && calls <= r.calls
      && |r.calls| - |calls| == |r.timers| + (if r.err.Some? then 1 else 0) <= |cmds|
      && forall j :: |calls| <= j < |r.calls| ==> r.calls[j] == ContainerExec(id, Prefixed(prefix, cmds[j - |calls|]))
    decreases |cmds|
  {
    if cmds != [] {
      var cmd := Prefixed(prefix, cmds[0]);
      var call := ContainerExec(id, cmd);
      if w.succeeds(|calls|, call) {
        var rest := ContainerFrom(prefix, w, id, cmds[1..], calls + [call], readings + 2);
        ContainerFromCalls(prefix, w, id, cmds[1..], calls + [call], readings + 2);
        assert calls <= calls + [call] <= rest.calls;
        forall j | |calls| <= j < |rest.calls|
          ensures rest.calls[j] == ContainerExec(id, Prefixed(prefix, cmds[j - |calls|]))
        {
          if j > |calls| {
            assert cmds[1..][j - |calls| - 1] == cmds[j - |calls|];
          }
        }
      }
    }
  }

  /**
   * The container loop stops at the first failing command and at nothing
   * else: no error exactly when every command got a timer; on an error the
   * last call is the one that failed.
   */
  lemma {:induction false} ContainerFromEnds(prefix: string, w: World, id: string, cmds: seq<string>,
                                             calls: seq<Call>, readings: nat)
    ensures var r := ContainerFrom(prefix, w, id, cmds, calls, readings);
      && (r.err.None? <==> |r.timers| == |cmds|)
      && (r.err.Some? ==>
            |calls| < |r.calls| && r.err == Some(Failed(r.calls[|r.calls| - 1]))
            && !w.succeeds(|r.calls| - 1, r.calls[|r.calls| - 1]))
    decreases |cmds|
  {
    if cmds != [] {
      var call := ContainerExec(id, Prefixed(prefix, cmds[0]));
      if w.succeeds(|calls|, call) {
        ContainerFromEnds(prefix, w, id, cmds[1..], calls + [call], readings + 2);
      }
    }
  }

  /** The calls of the timed container commands all succeeded. */
  lemma {:induction false} ContainerFromSucceeded(prefix: string, w: World, id: string, cmds: seq<string>,
                                                  calls: seq<Call>, readings: nat)
    ensures var r := ContainerFrom(prefix, w, id, cmds, calls, readings);
      && calls <= r.calls && |calls| + |r.timers| <= |r.calls|
      && Succeeded(w, r.calls, |calls|, |calls| + |r.timers|)
    decreases |cmds|
  {
    if cmds != [] {
      var call := ContainerExec(id, Prefixed(prefix, cmds[0]));
      if w.succeeds(|calls|, call) {
        var rest := ContainerFrom(prefix, w, id, cmds[1..], calls + [call], readings + 2);
        ContainerFromSucceeded(prefix, w, id, cmds[1..], calls + [call], readings + 2);
        assert rest.calls[|calls|] == call;
      }
    }
  }

  /**
   * The container set-up calls when they all succeed: the search, the
   * removal of the container it found (if any), the creation and the start.
   */
  function SetupCalls(opts: ContainerOpts, w: World): seq<Call> {
    var existing := w.existing(opts);
    [FindContainer(opts)]
      + (if existing.Some? then [RemoveContainer(existing.value)] else [])
      + [CreateContainer(opts), StartContainer(w.newId(opts))]
  }

  /**
   * The set-up runs no command. It fails exactly at its first failing call,
   * which is its last; when nothing fails it makes every set-up call, in
   * order.
   */
  lemma SetUpOutcome(opts: ContainerOpts, w: World, calls: seq<Call>)
    ensures var (failed, made) := SetUp(opts, w, calls);
      && calls <= made
      && (forall j :: |calls| <= j < |made| ==> !made[j].ContainerExec?)
      && (failed.None? ==> made == calls + SetupCalls(opts, w))
      && (failed.Some? ==> |calls| < |made| && made[|made| - 1] == failed.value && !w.succeeds(|made| - 1, failed.value))
      && Succeeded(w, made, |calls|, |made| - (if failed.Some? then 1 else 0))
  {
  }

  /**
   * A failing set-up step ends the container build with no timer, no
   * clock reading and no command run; otherwise the set-up calls come
   * first, in order, and after them only the commands, prefixed, in the
   * new container.
   */
  lemma ContainerSetup(cfg: BuildConfiguration, opts: ContainerOpts, w: World, calls: seq<Call>, readings: nat)
    ensures var r := InContainer(cfg, opts, w, calls, readings);
      var setup := SetupCalls(opts, w);
      && calls <= r.calls
      && (r.err.Some? && !r.err.value.call.ContainerExec? ==>
            && r.timers == [] && r.readings == readings
            && forall j :: |calls| <= j < |r.calls| ==> !r.calls[j].ContainerExec?)
      && (r.err.None? || r.err.value.call.ContainerExec? ==>
            && calls + setup <= r.calls
            && |r.calls| <= |calls| + |setup| + |cfg.target.commands|
            && forall j :: |calls| + |setup| <= j < |r.calls| ==>
                 r.calls[j] == ContainerExec(w.newId(opts), Prefixed(cfg.execPrefix, cfg.target.commands[j - |calls| - |setup|])))
  {
    SetUpOutcome(opts, w, calls);
    var (failed, made) := SetUp(opts, w, calls);
    if failed.None? {
      var id := w.newId(opts);
      ContainerFromCalls(cfg.execPrefix, w, id, cfg.target.commands, made, readings);
      ContainerFromEnds(cfg.execPrefix, w, id, cfg.target.commands, made, readings);
      ContainerFromSucceeded(cfg.execPrefix, w, id, cfg.target.commands, made, readings);
    }
  }

  // ---------------------------------------------------------------------
  // The build command

  /** The target named on the command line, `default` when there is none. */
  function BuildTargetName(args: seq<string>): string {
    if |args| > 0 then args[0] else "default"
  }

  /**
   * The phase that runs: the default build when the manifest names no
   * targets, the named target otherwise, and the zero phase when that
   * target does not exist.
   */
  function SelectPhase(instr: BuildInstructions, name: string): BuildPhase {
    if |instr.buildTargets| == 0 then instr.build
    else if name in instr.buildTargets then instr.buildTargets[name]
    else ZeroPhase()
  }

  /** A missing target builds nothing: no command runs, nothing is timed, and the build succeeds. */
  lemma MissingTargetBuildsNothing(instr: BuildInstructions, name: string, cfg: BuildConfiguration,
                                   w: World, calls: seq<Call>, readings: nat)
    requires |instr.buildTargets| > 0 && name !in instr.buildTargets
    requires cfg.target == SelectPhase(instr, name)
    ensures RunFrom(cfg, w, cfg.target.commands, cfg.targetDir, calls, readings) == Run([], None, calls, readings)
    ensures !UsesContainer(cfg.target, false) && cfg.target.environment == []
  {
    assert cfg.target.commands == [];
  }

  /**
   * The configuration of a build: the selected phase, the package
   * directory, the exec prefix, and the sandbox flag, which is taken from
   * the manifest's top level while the phase's own flag is still unset.
   */
  function Configure(instr: BuildInstructions, args: seq<string>, targetDir: string, execPrefix: string): (cfg: BuildConfiguration)
    ensures cfg.sandboxed == instr.sandbox
    ensures cfg.target == SelectPhase(instr, BuildTargetName(args))
    ensures cfg.targetDir == targetDir && cfg.execPrefix == execPrefix
  {
    var unset := ZeroPhase();
    BuildConfiguration(SelectPhase(instr, BuildTargetName(args)), targetDir, instr.sandbox || unset.sandbox, execPrefix)
  }

  /** The build goes to a container when the phase names an image and containers are not bypassed. */
  predicate UsesContainer(phase: BuildPhase, noContainer: bool) {
    phase.container.image != "" && !noContainer
  }

  // ---------------------------------------------------------------------
  // The phase's environment

  predicate EnvWellFormed(entries: seq<string>) {
    forall e :: e in entries ==> '=' in e
  }

  /**
   * An entry `KEY=VALUE`: the key is the text before the first `=`, the
   * value the text up to the next `=` (anything after it is dropped), with
   * every `{PKGDIR}` replaced by the package directory.
   */
  function EnvAssignment(entry: string, targetDir: string): (kv: (string, string))
    requires '=' in entry
    ensures '=' !in kv.0 && kv.0 == entry[..IndexOf(entry, '=')]
  {
    var parts := Split(entry, '=');
    (parts[0], ReplaceAll(parts[1], "{PKGDIR}", targetDir))
  }

  /** Whatever follows the first `=`, the value is the part of it before the next `=`. */
  lemma EnvAssignmentAfter(key: string, tail: string, targetDir: string)
    requires '=' !in key
    ensures '=' in key + ['='] + tail
    ensures EnvAssignment(key + ['='] + tail, targetDir)
      == (key, ReplaceAll(tail[..IndexOf(tail, '=')], "{PKGDIR}", targetDir))
  {
    assert (key + ['='] + tail)[|key|] == '=';
    SplitAfter(key, '=', tail);
  }

  /** The key and value of an entry written `key=value`, with or without more `=`-separated text after. */
  lemma EnvAssignmentOf(key: string, value: string, rest: string, targetDir: string)
    requires '=' !in key && '=' !in value
    requires rest == [] || rest[0] == '='
    ensures '=' in key + ['='] + (value + rest)
    ensures EnvAssignment(key + ['='] + (value + rest), targetDir) == (key, ReplaceAll(value, "{PKGDIR}", targetDir))
  {
    var tail := value + rest;
    EnvAssignmentAfter(key, tail, targetDir);
    IndexOfBefore(value, '=', rest);
    assert tail[..|value|] == value;
  }

  /** A value that starts with `{PKGDIR}` starts with the package directory instead. */
  lemma PkgDirExpands(suffix: string, targetDir: string)
    requires !Occurs("{PKGDIR}", suffix)
    ensures ReplaceAll("{PKGDIR}" + suffix, "{PKGDIR}", targetDir) == targetDir + suffix
  {
    var pat := "{PKGDIR}";
    assert HeadUnique(pat);
    ReplaceAllAround("", pat, suffix, targetDir);
    assert "" + pat + suffix == pat + suffix;
    ReplaceAllAbsent(suffix, pat, targetDir);
  }

  /** An entry `KEY={PKGDIR}SUFFIX` sets `KEY` to the package directory followed by the suffix. */
  lemma PkgDirEntry(key: string, suffix: string, targetDir: string)
    requires '=' !in key && '=' !in suffix && !Occurs("{PKGDIR}", suffix)
    ensures '=' in key + ['='] + ("{PKGDIR}" + suffix)
    ensures EnvAssignment(key + ['='] + ("{PKGDIR}" + suffix), targetDir) == (key, targetDir + suffix)
  {
    var value := "{PKGDIR}" + suffix;
    assert '=' !in value by {
      assert forall k :: 0 <= k < 8 ==> value[k] == "{PKGDIR}"[k];
      assert forall k :: 8 <= k < |value| ==> value[k] == suffix[k - 8];
    }
    assert value + [] == value;
    EnvAssignmentOf(key, value, [], targetDir);
    PkgDirExpands(suffix, targetDir);
  }

  /**
   * Whether `os.Setenv` accepts a variable on a Unix system: the key is
   * non-empty and holds neither `=` nor NUL, and the value holds no NUL.
   */
  predicate SetenvAccepts(key: string, value: string) {
    key != [] && '=' !in key && '\0' !in key && '\0' !in value
  }

  /** The environment after one `os.Setenv`, whose error the caller ignores. */
  function Setenv(env: map<string, string>, key: string, value: string): map<string, string> {
    if SetenvAccepts(key, value) then env[key := value] else env
  }

  /** The environment after setting each entry in turn. */
  function EnvAfter(env: map<string, string>, entries: seq<string>, targetDir: string): map<string, string>
    requires EnvWellFormed(entries)
    decreases |entries|
  {
    if entries == [] then env
    else
      var kv := EnvAssignment(entries[0], targetDir);
      EnvAfter(Setenv(env, kv.0, kv.1), entries[1..], targetDir)
  }

  /**
   * An entry with nothing before its `=` names the empty variable, which
   * `os.Setenv` refuses: the entry changes nothing.
   */
  lemma EnvAfterEmptyKey(env: map<string, string>, value: string, entries: seq<string>, targetDir: string)
    requires EnvWellFormed(entries)
    ensures EnvWellFormed([['='] + value] + entries)
    ensures EnvAfter(env, [['='] + value] + entries, targetDir) == EnvAfter(env, entries, targetDir)
  {
  }

  /** The last entry wins: appending an entry sets its key on top of everything before. */
  lemma {:induction false} EnvAfterLastWins(env: map<string, string>, entries: seq<string>, e: string, targetDir: string)
    requires EnvWellFormed(entries) && '=' in e
    ensures EnvWellFormed(entries + [e])
    ensures var kv := EnvAssignment(e, targetDir);
      var before := EnvAfter(env, entries, targetDir);
      EnvAfter(env, entries + [e], targetDir)
        == if SetenvAccepts(kv.0, kv.1) then before[kv.0 := kv.1] else before
    decreases |entries|
  {
    if entries == [] {
      assert [] + [e] == [e];
    } else {
      var kv := EnvAssignment(entries[0], targetDir);
      assert (entries + [e])[1..] == entries[1..] + [e];
      EnvAfterLastWins(Setenv(env, kv.0, kv.1), entries[1..], e, targetDir);
    }
  }

  /** A variable no entry names keeps what it had, including being unset. */
  lemma {:induction false} EnvAfterOthers(env: map<string, string>, entries: seq<string>, targetDir: string, key: string)
    requires EnvWellFormed(entries)
    requires forall e :: e in entries ==> EnvAssignment(e, targetDir).0 != key
    ensures var after := EnvAfter(env, entries, targetDir);
      (key in after <==> key in env) && (key in env ==> after[key] == env[key])
    decreases |entries|
  {
    if entries != [] {
      var kv := EnvAssignment(entries[0], targetDir);
      assert entries[0] in entries;
      EnvAfterOthers(Setenv(env, kv.0, kv.1), entries[1..], targetDir, key);
    }
  }

  /** Sets the phase's environment entries, one after the other. */
  method ApplyEnvironment(rt: Runtime, entries: seq<string>, targetDir: string)
    requires EnvWellFormed(entries)
    modifies rt`env
    ensures rt.env == EnvAfter(old(rt.env), entries, targetDir)
  {
    var i := 0;
    while i < |entries|
      invariant i <= |entries|
      invariant EnvAfter(old(rt.env), entries, targetDir) == EnvAfter(rt.env, entries[i..], targetDir)
    {
      assert entries[i] in entries;
      var kv := EnvAssignment(entries[i], targetDir);
      var _ := rt.SetEnv(kv.0, kv.1);
      assert entries[i..][1..] == entries[i + 1..];
      i := i + 1;
    }
  }

  datatype ExitStatus = ExitSuccess | ExitFailure

  /**
   * The `build` command: fails at once without a manifest; otherwise sets
   * the selected phase's environment, runs its commands in a container or
   * on the host, and fails exactly when they did.
   */
  method Execute(rt: Runtime, execPrefix: string, noContainer: bool, manifest: Option<BuildInstructions>,
                 args: seq<string>, targetPackage: string, targetDir: string)
    returns (status: ExitStatus, stepTimes: seq<CommandTimer>, buildError: Option<BuildError>)
    requires manifest.Some? ==> EnvWellFormed(SelectPhase(manifest.value, BuildTargetName(args)).environment)
    modifies rt`calls, rt`readings, rt`env
    ensures manifest.None? ==>
      status == ExitFailure && stepTimes == [] && buildError == None
      && rt.calls == old(rt.calls) && rt.readings == old(rt.readings) && rt.env == old(rt.env)
    ensures manifest.Some? ==>
      var cfg := Configure(manifest.value, args, targetDir, execPrefix);
      var r := if UsesContainer(cfg.target, noContainer)
        then InContainer(cfg, ContainerOpts(cfg.target.container, targetPackage), rt.world, old(rt.calls), old(rt.readings))
        else RunFrom(cfg, rt.world, cfg.target.commands, targetDir, old(rt.calls), old(rt.readings));
      && stepTimes == r.timers && buildError == r.err && rt.calls == r.calls && rt.readings == r.readings
      && rt.env == EnvAfter(old(rt.env), cfg.target.environment, targetDir)
      && (status == ExitFailure <==> r.err.Some?)
  {
    if manifest.None? {
      return ExitFailure, [], None;
    }
    var cfg := Configure(manifest.value, args, targetDir, execPrefix);
    ApplyEnvironment(rt, cfg.target.environment, targetDir);
    if UsesContainer(cfg.target, noContainer) {
      stepTimes, buildError := RunCommandsInContainer(rt, cfg, ContainerOpts(cfg.target.container, targetPackage));
    } else {
      stepTimes, buildError := RunCommands(rt, cfg);
    }
    status := if buildError.Some? then ExitFailure else ExitSuccess;
  }
}
