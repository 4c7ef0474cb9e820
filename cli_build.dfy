/**
 * The `build` subcommand of the command line: the `@package:target`
 * argument, the choice of the package to build, and the exit status.
 */
module Cli {
  import opened Wrappers
  import opened Text
  import opened Build

  /** What `parseArgs` returns: a package name, a target and an error message, if any. */
  datatype ParsedArg = ParsedArg(pkgName: string, target: string, err: Option<string>)

  function ParseError(arg: string): string {
    "unable to parse package/target definition: " + arg
  }

  /**
   * `parseArgs`: a bare argument is a target of the default package. An
   * argument `@package:target` loses its one leading `@` and is split at
   * its first `:`, so the target may hold further `:`; without a `:` it is
   * an error and both names are empty.
   */
  function ParseArgs(arg: string): (p: ParsedArg)
    ensures !HasPrefix(arg, "@") ==> p == ParsedArg("", arg, None)
    ensures HasPrefix(arg, "@") && ':' !in arg[1..] ==> p == ParsedArg("", "", Some(ParseError(arg)))
    ensures HasPrefix(arg, "@") && ':' in arg[1..] ==>
      && p.err == None && ':' !in p.pkgName
      && arg[1..] == p.pkgName + [':'] + p.target
  {
    if HasPrefix(arg, "@") then
      var parts := SplitFirst(TrimPrefix(arg, "@"), ':');
      if |parts| < 2 then ParsedArg("", "", Some(ParseError(arg)))
      else ParsedArg(parts[0], parts[1], None)
    else
      ParsedArg("", arg, None)
  }

  /** An argument written `@package:target` gives back its package and its target. */
  lemma ParseArgsRoundTrip(pkgName: string, target: string)
    requires ':' !in pkgName
    ensures ParseArgs("@" + pkgName + ":" + target) == ParsedArg(pkgName, target, None)
  {
    var arg := "@" + pkgName + ":" + target;
    assert arg == "@" + (pkgName + [':'] + target);
    assert HasPrefix(arg, "@");
    assert TrimPrefix(arg, "@") == pkgName + [':'] + target;
    SplitFirstOf(pkgName, ':', target);
  }

  /** Printing what a `@package:target` argument parses to gives the argument back. */
  lemma ParseArgsPrints(arg: string)
    requires HasPrefix(arg, "@") && ParseArgs(arg).err == None
    ensures arg == "@" + ParseArgs(arg).pkgName + ":" + ParseArgs(arg).target
  {
    var p := ParseArgs(arg);
    Rejoin(arg, p.pkgName, p.target);
  }

  lemma Rejoin(arg: string, a: string, b: string)
    requires HasPrefix(arg, "@") && arg[1..] == a + [':'] + b
    ensures arg == "@" + a + ":" + b
  {
    assert arg == "@" + arg[1..];
    assert "@" + a + ":" + b == "@" + (a + [':'] + b);
  }

  /** A package of the workspace, by name. */
  datatype Package = Package(name: string)

  /**
   * The loaded workspace as far as the command asks it: its packages by
   * name and its default target package, if it has one.
   */
  datatype Workspace = Workspace(packages: map<string, Package>, targetPackage: Option<Package>)

  /** The command's flags. */
  datatype BuildCmd = BuildCmd(execPrefix: string, noContainer: bool, dependenciesOnly: bool, cleanBuild: bool)

  /** The flags the package build receives. */
  datatype BuildFlags = BuildFlags(hostOnly: bool, cleanBuild: bool, execPrefix: string, dependenciesOnly: bool)

  /** The result of building a package: its step timers and whether it failed. */
  datatype Outcome = Outcome(stepTimers: seq<CommandTimer>, failed: bool)

  /** The timers of one package, under its name. */
  datatype TargetTimer = TargetTimer(name: string, timers: seq<CommandTimer>)

  /** The package and target named by the positional arguments; none is parsed when there are none. */
  function Argument(args: seq<string>): ParsedArg {
    if |args| > 0 then ParseArgs(args[0]) else ParsedArg("", "", None)
  }

  /**
   * The package to build and its target: the named package when the
   * argument names one, the default target package otherwise; `None` for
   * an argument that does not parse or a package the workspace lacks.
   */
  function Selection(ws: Workspace, args: seq<string>): Option<(Package, string)> {
    var p := Argument(args);
    if p.err.Some? then None
    else if p.pkgName != "" then
      if p.pkgName in ws.packages then Some((ws.packages[p.pkgName], p.target)) else None
    else if ws.targetPackage.Some? then Some((ws.targetPackage.value, p.target))
    else None
  }

  function Flags(cmd: BuildCmd): BuildFlags {
    BuildFlags(cmd.noContainer, cmd.cleanBuild, cmd.execPrefix, cmd.dependenciesOnly)
  }

  /**
   * `BuildCmd.Execute`: no workspace, an argument that does not parse or a
   * package it cannot find fails before any build. Otherwise the package
   * is built, its timers are kept under its name, and the command fails
   * exactly when the build did.
   */
  method Execute(cmd: BuildCmd, workspace: Option<Workspace>, args: seq<string>,
                 build: (Package, BuildFlags, string) -> Outcome)
    returns (status: ExitStatus, targetTimers: seq<TargetTimer>)
    ensures workspace.None? || Selection(workspace.value, args).None? ==>
      status == ExitFailure && targetTimers == []
    ensures workspace.Some? && Selection(workspace.value, args).Some? ==>
      var (pkg, target) := Selection(workspace.value, args).value;
      var o := build(pkg, Flags(cmd), target);
      && targetTimers == [TargetTimer(pkg.name, o.stepTimers)]
      && (status == ExitFailure <==> o.failed)
  {
    if workspace.None? {
      return ExitFailure, [];
    }
    var ws := workspace.value;
    var pkgName, target := "", "";
    if |args| > 0 {
      var parsed := ParseArgs(args[0]);
      if parsed.err.Some? {
        return ExitFailure, [];
      }
      pkgName, target := parsed.pkgName, parsed.target;
    }
    var pkg: Package;
    if pkgName != "" {
      if pkgName !in ws.packages {
        return ExitFailure, [];
      }
      pkg := ws.packages[pkgName];
    } else {
      if ws.targetPackage.None? {
        return ExitFailure, [];
      }
      pkg := ws.targetPackage.value;
    }
    var o := build(pkg, Flags(cmd), target);
    targetTimers := [];
    targetTimers := targetTimers + [TargetTimer(pkg.name, o.stepTimers)];
    status := if o.failed then ExitFailure else ExitSuccess;
  }

  /** `@package:target` builds that package of the workspace, at that target. */
  lemma NamedPackageSelected(ws: Workspace, pkgName: string, target: string)
    requires ':' !in pkgName && pkgName != ""
    ensures pkgName in ws.packages ==>
      Selection(ws, ["@" + pkgName + ":" + target]) == Some((ws.packages[pkgName], target))
    ensures pkgName !in ws.packages ==> Selection(ws, ["@" + pkgName + ":" + target]) == None
  {
    ParseArgsRoundTrip(pkgName, target);
  }

  /**
   * The default package is built for no argument, for a bare target, and
   * for `@:target`, whose package name is empty.
   */
  lemma DefaultPackageSelected(ws: Workspace, target: string)
    ensures Selection(ws, []) == (if ws.targetPackage.Some? then Some((ws.targetPackage.value, "")) else None)
    ensures !HasPrefix(target, "@") ==>
      Selection(ws, [target]) == (if ws.targetPackage.Some? then Some((ws.targetPackage.value, target)) else None)
    ensures Selection(ws, ["@:" + target]) == (if ws.targetPackage.Some? then Some((ws.targetPackage.value, target)) else None)
  {
    assert Argument([]) == ParsedArg("", "", None);
    if !HasPrefix(target, "@") {
      assert Argument([target]) == ParseArgs(target) == ParsedArg("", target, None);
    }
    ParseArgsRoundTrip("", target);
    assert "@" + "" + ":" + target == "@:" + target;
    assert Argument(["@:" + target]) == ParsedArg("", target, None);
  }
}
