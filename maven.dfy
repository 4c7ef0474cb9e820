/**
 * The Maven provider: the binary-distribution URL on the Apache archive,
 * the installation under `ToolsDir/maven`, and the PATH its `Setup` sets.
 */
module Maven {
  import opened Wrappers
  import opened Text
  import opened Toolchain
  import opened InstallTarget

  /** The archive root; it already ends in `/`. */
  const Mirror: string := "https://archive.apache.org/dist/maven/"

  function ArchiveFile(version: string): (name: string)
    ensures HasPrefix(name, "apache-maven-") && |name| == |version| + 24
    ensures name[13..13 + |version|] == version && name[13 + |version|..] == "-bin.tar.gz"
  {
    "apache-maven-" + version + "-bin.tar.gz"
  }

  /** `Mirror/maven-MAJOR/VERSION/binaries/ARCHIVE`. */
  function DownloadUrl(version: string): string {
    Mirror + "/maven-" + MajorVersion(version) + "/" + version + "/binaries/" + ArchiveFile(version)
  }

  /**
   * Because the mirror ends in `/` and the format adds another, every URL
   * has an empty path segment right after `maven`.
   */
  lemma DownloadUrlDoubleSlash(version: string)
    ensures HasPrefix(DownloadUrl(version), "https://archive.apache.org/dist/maven//maven-")
  {
    var p := "https://archive.apache.org/dist/maven//maven-";
    var u := DownloadUrl(version);
    var tail := MajorVersion(version) + "/" + version + "/binaries/" + ArchiveFile(version);
    assert u == Mirror + "/maven-" + tail;
    assert Mirror + "/maven-" == p;
    assert u == p + tail;
  }

  /** The folder is named after the text before the version's first `.`. */
  lemma DownloadUrlFolder(major: string, rest: string)
    requires '.' !in major
    ensures var v := major + "." + rest;
      DownloadUrl(v) == Mirror + "/maven-" + major + "/" + v + "/binaries/" + ArchiveFile(v)
  {
    MajorVersionOf(major, rest);
  }

  /** `ToolsDir/maven`, the directory archives are unpacked into. */
  function InstallDir(toolsDir: string): string {
    PathJoin(toolsDir, "maven")
  }

  /** `InstallDir/apache-maven-VERSION`, whose presence means "installed". */
  function MavenDir(toolsDir: string, version: string): string {
    PathJoin(InstallDir(toolsDir), "apache-maven-" + version)
  }

  /** Within one tools directory, distinct versions never share an installation. */
  lemma MavenDirInjective(toolsDir: string, v1: string, v2: string)
    requires MavenDir(toolsDir, v1) == MavenDir(toolsDir, v2)
    ensures v1 == v2
  {
    PathJoinInjective(InstallDir(toolsDir), "apache-maven-" + v1, "apache-maven-" + v2);
    assert v1 == ("apache-maven-" + v1)[13..] && v2 == ("apache-maven-" + v2)[13..];
  }

  /**
   * `Setup`: `MavenDir/bin` (joined with a literal `/`) goes in front of
   * PATH, separated by `:` even when PATH was empty. Nothing else changes
   * and it never fails.
   */
  method Setup(t: Machine, version: string)
    modifies t
    ensures t.env == old(t.env)["PATH" := MavenDir(t.toolsDir, version) + "/bin:" + Getenv(old(t.env), "PATH")]
    ensures t.paths == old(t.paths) && t.actions == old(t.actions)
  {
    var cmdPath := MavenDir(t.toolsDir, version) + "/bin";
    var currentPath := t.GetEnv("PATH");
    t.SetEnv("PATH", cmdPath + ":" + currentPath);
    assert cmdPath + ":" + currentPath == MavenDir(t.toolsDir, version) + "/bin:" + currentPath;
  }

  /**
   * `Install`: nothing when `MavenDir` exists; otherwise the distribution
   * is downloaded and unpacked into `InstallDir`.
   */
  method Install(t: Machine, version: string) returns (err: Option<ToolError>)
    modifies t
    ensures t.env == old(t.env)
    ensures var url := DownloadUrl(version);
      var dest := InstallDir(t.toolsDir);
      if MavenDir(t.toolsDir, version) in old(t.paths) then
        err == None && t.actions == old(t.actions) && t.paths == old(t.paths)
      else if t.fetch(url).None? then
        err == Some(DownloadFailed(url)) && t.actions == old(t.actions) + [Download(url)]
        && t.paths == old(t.paths)
      else
        var local := t.fetch(url).value;
        var x := t.extract(local, dest);
        && t.actions == old(t.actions) + [Download(url), Unarchive(local, dest)]
        && t.paths == old(t.paths) + x.created
        && err == (if x.ok then None else Some(UnarchiveFailed(local, dest)))
  {
    err := InstallArchive(t, MavenDir(t.toolsDir, version), DownloadUrl(version), InstallDir(t.toolsDir));
  }
}
