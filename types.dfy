/**
 * The package manifest as the build command sees it: the build phases a
 * package declares and the instructions that hold them.
 */
module Types {

  /** The container a build phase can run in. */
  datatype ContainerDefinition = ContainerDefinition(
    image: string,
    mounts: seq<string>,
    ports: seq<string>,
    environment: seq<string>,
    command: string)

  /**
   * One build target: its container, tools, commands, artifacts, whether it
   * asks for a sandbox, its build root, its `KEY=VALUE` environment entries
   * and its tags.
   */
  datatype BuildPhase = BuildPhase(
    container: ContainerDefinition,
    tools: seq<string>,
    commands: seq<string>,
    artifacts: seq<string>,
    sandbox: bool,
    root: string,
    environment: seq<string>,
    tags: map<string, string>)

  datatype DependencySet = DependencySet(build: seq<string>, runtime: seq<string>)

  /** A parsed manifest: dependencies, the sandbox flag, named targets and the default build. */
  datatype BuildInstructions = BuildInstructions(
    dependencies: DependencySet,
    sandbox: bool,
    buildTargets: map<string, BuildPhase>,
    build: BuildPhase)

  /** The zero value of a build phase: no container, no commands, no sandbox. */
  function ZeroPhase(): BuildPhase {
    BuildPhase(ContainerDefinition("", [], [], [], ""), [], [], [], false, "", [], map[])
  }
}
