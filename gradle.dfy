/**
 * The Gradle provider: the distribution URL (whose template names only the
 * version), the installation under the shared cache, and the environment
 * its `Setup` leaves behind.
 */
module Gradle {
  import opened Wrappers
  import opened Text
  import opened Template
  import opened Toolchain
  import opened InstallTarget

  /** `gradle-{{.Version}}-bin.zip` on the Gradle distribution server. */
  const UrlTemplate: Template :=
    Text("https://services.gradle.org/distributions/gradle-", Field("Version", Text("-bin.zip", End)))

  /** The name of the release archive; the installation step never uses it. */
  function ArchiveFile(version: string): (name: string)
    ensures HasPrefix(name, "apache-gradle-") && |name| == |version| + 25
    ensures name[14..14 + |version|] == version && name[14 + |version|..] == "-bin.tar.gz"
  {
    "apache-gradle-" + version + "-bin.tar.gz"
  }

  /** The data the template is executed with: platform, version and a fixed "zip". */
  function UrlData(version: string, opsys: string, arch: string): (m: map<string, string>)
    ensures Value(m, "Version") == version
  {
    map["OS" := opsys, "Arch" := arch, "Version" := version, "Extension" := "zip"]
  }

  function DownloadUrl(version: string, opsys: string, arch: string): string {
    Render(UrlTemplate, UrlData(version, opsys, arch))
  }

  /** The URL names the version and nothing else: the platform never reaches it. */
  lemma DownloadUrlIs(version: string, opsys: string, arch: string)
    ensures DownloadUrl(version, opsys, arch)
      == "https://services.gradle.org/distributions/gradle-" + version + "-bin.zip"
  {
    var d := UrlData(version, opsys, arch);
    var out := "https://services.gradle.org/distributions/gradle-";
    assert RenderTo(UrlTemplate, d, "") == RenderTo(UrlTemplate.rest, d, "" + out);
    assert "" + out == out;
    assert RenderTo(UrlTemplate.rest, d, out) == RenderTo(UrlTemplate.rest.rest, d, out + version);
    assert RenderTo(UrlTemplate.rest.rest, d, out + version) == out + version + "-bin.zip";
  }

  /** `SharedCacheDir/gradle`, the directory archives are unpacked into. */
  function InstallDir(spec: ToolSpec): string {
    PathJoin(spec.sharedCacheDir, "gradle")
  }

  /** `InstallDir/gradle-VERSION`, whose presence means "installed". */
  function GradleDir(spec: ToolSpec): string {
    PathJoin(InstallDir(spec), "gradle-" + spec.version)
  }

  /** `PackageCacheDir/gradle-home/VERSION`, the per-package Gradle user home. */
  function GradleHome(spec: ToolSpec): string {
    PathJoin(PathJoin(spec.packageCacheDir, "gradle-home"), spec.version)
  }

  /** Within one cache, distinct versions never share an installation. */
  lemma GradleDirInjective(s1: ToolSpec, s2: ToolSpec)
    requires s1.sharedCacheDir == s2.sharedCacheDir
    requires GradleDir(s1) == GradleDir(s2)
    ensures s1.version == s2.version
  {
    PathJoinInjective(InstallDir(s1), "gradle-" + s1.version, "gradle-" + s2.version);
    assert s1.version == ("gradle-" + s1.version)[7..] && s2.version == ("gradle-" + s2.version)[7..];
  }

  /**
   * `Setup`: `GradleDir/bin` goes in front of PATH, separated by `:` even
   * when PATH was empty, and GRADLE_USER_HOME names the package's Gradle
   * home. It never fails.
   */
  method Setup(t: Machine, spec: ToolSpec)
    modifies t
    ensures t.env == old(t.env)["PATH" := PathJoin(GradleDir(spec), "bin") + ":" + Getenv(old(t.env), "PATH")]
                               ["GRADLE_USER_HOME" := GradleHome(spec)]
    ensures t.paths == old(t.paths) && t.actions == old(t.actions)
  {
    var cmdPath := PathJoin(GradleDir(spec), "bin");
    var currentPath := t.GetEnv("PATH");
    t.SetEnv("PATH", cmdPath + ":" + currentPath);
    t.SetEnv("GRADLE_USER_HOME", GradleHome(spec));
  }

  /**
   * `Install`: nothing when `GradleDir` exists; otherwise the distribution
   * is downloaded and unpacked into `InstallDir`.
   */
  method Install(t: Machine, spec: ToolSpec, opsys: string, arch: string) returns (err: Option<ToolError>)
    modifies t
    ensures t.env == old(t.env)
    ensures var url := DownloadUrl(spec.version, opsys, arch);
      if GradleDir(spec) in old(t.paths) then
        err == None && t.actions == old(t.actions) && t.paths == old(t.paths)
      else if t.fetch(url).None? then
        err == Some(DownloadFailed(url)) && t.actions == old(t.actions) + [Download(url)]
        && t.paths == old(t.paths)
      else
        var local := t.fetch(url).value;
        var x := t.extract(local, InstallDir(spec));
        && t.actions == old(t.actions) + [Download(url), Unarchive(local, InstallDir(spec))]
        && t.paths == old(t.paths) + x.created
        && err == (if x.ok then None else Some(UnarchiveFailed(local, InstallDir(spec))))
  {
    err := InstallArchive(t, GradleDir(spec), DownloadUrl(spec.version, opsys, arch), InstallDir(spec));
  }
}
