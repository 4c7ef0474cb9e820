/**
 * The R provider: the source-tarball URL on CRAN, and an installation that
 * downloads the sources, unpacks them once, and builds them with
 * `configure`, `make` and `make install` into `ToolsDir/R/R-VERSION`.
 */
module RLang {
  import opened Wrappers
  import opened Text
  import opened Toolchain
  import opened InstallTarget

  const Mirror: string := "https://cloud.r-project.org/src/base"

  function ArchiveFile(version: string): (name: string)
    ensures HasPrefix(name, "R-") && |name| == |version| + 9
    ensures name[2..2 + |version|] == version && name[2 + |version|..] == ".tar.gz"
  {
    "R-" + version + ".tar.gz"
  }

  /** `Mirror/R-MAJOR/R-VERSION.tar.gz`; building it never fails. */
  function DownloadUrl(version: string): string {
    Mirror + "/R-" + MajorVersion(version) + "/" + ArchiveFile(version)
  }

  /** The folder is named after the text before the version's first `.`. */
  lemma DownloadUrlFolder(major: string, rest: string)
    requires '.' !in major
    ensures DownloadUrl(major + "." + rest) == Mirror + "/R-" + major + "/" + ArchiveFile(major + "." + rest)
  {
    MajorVersionOf(major, rest);
  }

  /** `ToolsDir/R`. */
  function InstallDir(toolsDir: string): string {
    PathJoin(toolsDir, "R")
  }

  /** `ToolsDir/R/R-VERSION`, the build prefix; its presence means "installed". */
  function RLangDir(toolsDir: string, version: string): string {
    PathJoin(InstallDir(toolsDir), "R-" + version)
  }

  /** `ToolsDir/R/src`, where the sources are unpacked. */
  function SourceRoot(toolsDir: string): string {
    PathJoin(InstallDir(toolsDir), "src")
  }

  /** `ToolsDir/R/src/R-VERSION`, where the build runs. */
  function SourceDir(toolsDir: string, version: string): string {
    PathJoin(SourceRoot(toolsDir), "R-" + version)
  }

  /** The three build commands, all run in the source directory. */
  function BuildSteps(toolsDir: string, version: string): seq<Action> {
    var src := SourceDir(toolsDir, version);
    [Run("./configure --with-x=no --prefix=" + RLangDir(toolsDir, version), src),
     Run("make", src),
     Run("make install", src)]
  }

  /** `Setup`: puts `rlangDir/bin` in front of the target's PATH; it never fails. */
  method Setup(t: Machine, rlangDir: string)
    modifies t
    ensures t.actions == old(t.actions) + [PrependToPath(PathJoin(rlangDir, "bin"))]
    ensures t.env == old(t.env)["PATH" := PathJoin(rlangDir, "bin") + ":" + Getenv(old(t.env), "PATH")]
    ensures t.paths == old(t.paths)
  {
    t.PrependToPath(PathJoin(rlangDir, "bin"));
  }

  /**
   * `Install`: returns the prefix at once when it exists. Otherwise it
   * downloads the sources, unpacks them unless the source directory is
   * already there, creates the prefix and runs the build, whose outcome it
   * does not look at: once the sources are in place it reports success.
   */
  method Install(t: Machine, spec: ToolSpec) returns (dir: string, err: Option<ToolError>)
    modifies t
    ensures t.env == old(t.env)
    ensures var rlangDir := RLangDir(t.toolsDir, spec.version);
      var srcDir := SourceDir(t.toolsDir, spec.version);
      var url := DownloadUrl(spec.version);
      if rlangDir in old(t.paths) then
        dir == rlangDir && err == None && t.actions == old(t.actions) && t.paths == old(t.paths)
      else if t.fetch(url).None? then
        dir == "" && err == Some(DownloadFailed(url))
        && t.actions == old(t.actions) + [Download(url)] && t.paths == old(t.paths)
      else
        var local := t.fetch(url).value;
        var x := t.extract(local, SourceRoot(t.toolsDir));
        if srcDir !in old(t.paths) && !x.ok then
          dir == "" && err == Some(UnarchiveFailed(local, SourceRoot(t.toolsDir)))
          && t.actions == old(t.actions) + [Download(url), Unarchive(local, SourceRoot(t.toolsDir))]
          && t.paths == old(t.paths) + x.created
        else
          var unpack := if srcDir in old(t.paths) then [] else [Unarchive(local, SourceRoot(t.toolsDir))];
          var created := if srcDir in old(t.paths) then {} else x.created;
          && dir == rlangDir && err == None
          && t.actions == old(t.actions) + [Download(url)] + unpack + [Mkdir(rlangDir)]
                          + BuildSteps(t.toolsDir, spec.version)
          && t.paths == old(t.paths) + created + {rlangDir}
  {
    var installDir := InstallDir(t.toolsDir);
    var rlangDir := PathJoin(installDir, "R-" + spec.version);
    var present := t.PathExists(rlangDir);
    if present {
      return rlangDir, None;
    }
    var url := DownloadUrl(spec.version);
    var localFile := t.DownloadFile(url);
    if localFile.None? {
      return "", Some(DownloadFailed(url));
    }
    var tmpDir := PathJoin(installDir, "src");
    var srcDir := PathJoin(tmpDir, "R-" + spec.version);
    var ok := UnpackSources(t, localFile.value, tmpDir, srcDir);
    if !ok {
      return "", Some(UnarchiveFailed(localFile.value, tmpDir));
    }
    Build(t, rlangDir, srcDir);
    return rlangDir, None;
  }

  /** Unpacks the sources unless their directory already exists. */
  method UnpackSources(t: Machine, local: string, tmpDir: string, srcDir: string) returns (ok: bool)
    modifies t
    ensures t.env == old(t.env)
    ensures if srcDir in old(t.paths) then
        ok && t.actions == old(t.actions) && t.paths == old(t.paths)
      else
        ok == t.extract(local, tmpDir).ok
        && t.actions == old(t.actions) + [Unarchive(local, tmpDir)]
        && t.paths == old(t.paths) + t.extract(local, tmpDir).created
  {
    var unpacked := t.PathExists(srcDir);
    ok := true;
    if !unpacked {
      ok := t.Unarchive(local, tmpDir);
    }
  }

  /** Creates the prefix and runs the three build commands in the source directory. */
  method Build(t: Machine, rlangDir: string, srcDir: string)
    modifies t
    ensures t.env == old(t.env) && t.paths == old(t.paths) + {rlangDir}
    ensures t.actions == old(t.actions) + [Mkdir(rlangDir),
      Run("./configure --with-x=no --prefix=" + rlangDir, srcDir), Run("make", srcDir), Run("make install", srcDir)]
  {
    t.MkdirAsNeeded(rlangDir);
    t.Run("./configure --with-x=no --prefix=" + rlangDir, srcDir);
    t.Run("make", srcDir);
    t.Run("make install", srcDir);
  }
}
