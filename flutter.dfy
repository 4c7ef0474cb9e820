/**
 * The Flutter toolchain provider: the release-URL version rule around the
 * 1.17.0 naming change, the download URL derived from version, channel and
 * platform, and installation into `ToolsDir/flutter/flutter-VERSION`.
 */
module Flutter {
  import opened Wrappers
  import opened Text
  import opened Semver
  import opened Template
  import opened Toolchain
  import opened InstallTarget

  /** Releases below this one are published under a `v`-prefixed version. */
  const Boundary: string := "v1.17.0"

  /** The version with a `v` in front, unless it already starts with one. */
  function WithV(version: string): string {
    if HasPrefix(version, "v") then version else "v" + version
  }

  /** `downloadURLVersion`: keep the `v` below 1.17.0, trim every leading `v` from there on. */
  function DownloadUrlVersion(version: string): string {
    var comp := WithV(version);
    if Compare(comp, Boundary) < 0 then comp else TrimLeft(comp, 'v')
  }

  /** Versions that precede 1.17.0, 1.17.0's own prereleases included. */
  predicate BelowBoundary(v: Version) {
    v.major < 1
    || (v.major == 1 && v.minor < 17)
    || (v.major == 1 && v.minor == 17 && v.patch == 0 && v.prerelease != [])
  }

  lemma BoundaryParses()
    ensures Parse(Boundary) == Some(Version(1, 17, 0, [], []))
  {
    assert Boundary == Dotted("1", "17", "0", "");
    assert DecimalValue("17") == 17 by { assert "17"[..1] == "1"; }
    assert DecimalValue("1") == 1 && DecimalValue("0") == 0;
    ParseDotted("1", "17", "0", "");
    assert ParseSuffix(1, 17, 0, "") == Some(Version(1, 17, 0, [], []));
  }

  /** The boundary is semantic: below it means an invalid string or a smaller version. */
  lemma BelowBoundaryIff(s: string)
    ensures Compare(s, Boundary) < 0 <==> !IsValid(s) || BelowBoundary(Parse(s).value)
  {
    BoundaryParses();
  }

  /**
   * The result starts with `v` exactly when the `v`-prefixed version sorts
   * below 1.17.0; then it is that version, otherwise it is that version
   * without its single leading `v`.
   */
  lemma DownloadUrlVersionPrefix(version: string)
    ensures var r := DownloadUrlVersion(version);
      && (HasPrefix(r, "v") <==> Compare(WithV(version), Boundary) < 0)
      && (HasPrefix(r, "v") ==> r == WithV(version))
      && (!HasPrefix(r, "v") ==> IsValid(WithV(version)) && "v" + r == WithV(version))
  {
    var comp := WithV(version);
    assert HasPrefix(comp, "v");
    if Compare(comp, Boundary) >= 0 {
      BoundaryParses();
      var r := TrimLeft(comp, 'v');
      assert |comp| >= 2 && comp[1] != 'v';
      assert |comp| - |r| == 1;
      assert comp == "v" + r;
    }
  }

  /** One leading `v` on the input makes no difference. */
  lemma DownloadUrlVersionIgnoresLeadingV(version: string)
    requires !HasPrefix(version, "v")
    ensures DownloadUrlVersion("v" + version) == DownloadUrlVersion(version)
  {
    assert HasPrefix("v" + version, "v");
  }

  /** Applying the rule to its own output changes nothing. */
  lemma DownloadUrlVersionIdempotent(version: string)
    ensures DownloadUrlVersion(DownloadUrlVersion(version)) == DownloadUrlVersion(version)
  {
    var r := DownloadUrlVersion(version);
    DownloadUrlVersionPrefix(version);
    if HasPrefix(r, "v") {
      assert WithV(r) == r;
    } else {
      assert WithV(r) == WithV(version);
    }
  }

  lemma ParsesV190()
    ensures Parse("v1.9.0") == Some(Version(1, 9, 0, [], []))
  {
    assert "v1.9.0" == Dotted("1", "9", "0", "");
    assert DecimalValue("1") == 1 && DecimalValue("9") == 9 && DecimalValue("0") == 0;
    ParseDotted("1", "9", "0", "");
    assert ParseSuffix(1, 9, 0, "") == Some(Version(1, 9, 0, [], []));
  }

  /** As text, "v1.17.0" sorts before "v1.9.0"... */
  lemma TextOrderMisleads()
    ensures LexLess("v1.17.0", "v1.9.0")
  {
    assert "v1.17.0"[1..] == "1.17.0" && "v1.9.0"[1..] == "1.9.0";
    assert "1.17.0"[1..] == ".17.0" && "1.9.0"[1..] == ".9.0";
    assert ".17.0"[1..] == "17.0" && ".9.0"[1..] == "9.0";
  }

  /** ...yet the comparison is numeric: 1.9.0 keeps its `v`... */
  lemma OldReleaseKeepsV()
    ensures DownloadUrlVersion("1.9.0") == "v1.9.0"
  {
    var c := WithV("1.9.0");
    assert c == "v1.9.0";
    ParsesV190();
    BoundaryParses();
    assert Compare(c, Boundary) == -1;
  }

  /** ...and 1.17.0 loses it, whether or not it was written with one. */
  lemma BoundaryDropsV()
    ensures DownloadUrlVersion("1.17.0") == "1.17.0"
    ensures DownloadUrlVersion("v1.17.0") == "1.17.0"
  {
    assert "1.17.0"[..1] == "1";
    assert !HasPrefix("1.17.0", "v");
    assert "v" + "1.17.0" == Boundary;
    assert WithV("1.17.0") == Boundary;
    assert WithV("v1.17.0") == Boundary;
    CompareReflexive(Boundary);
    assert TrimLeft(Boundary, 'v') == "1.17.0" by {
      assert Boundary[1..] == "1.17.0";
      assert TrimLeft("1.17.0", 'v') == "1.17.0";
    }
  }

  /** Build metadata does not carry 1.12.13 across the boundary. */
  lemma HotfixKeepsV()
    ensures DownloadUrlVersion("v1.12.13+hotfix.9") == "v1.12.13+hotfix.9"
  {
    var s := "v1.12.13+hotfix.9";
    assert HasPrefix(s, "v");
    assert s == Dotted("1", "12", "13", "+hotfix.9");
    assert DecimalValue("12") == 12 by { assert "12"[..1] == "1"; }
    assert DecimalValue("1") == 1;
    ParseDotted("1", "12", "13", "+hotfix.9");
    BelowBoundaryIff(s);
  }

  // ---------------------------------------------------------------------------
  // Download URL

  /** `{{.Channel}}/{{.OS}}/flutter_{{.OS}}_{{.Version}}-{{.Channel}}.{{.Extension}}` under the release bucket. */
  const UrlTemplate: Template :=
    Text("https://storage.googleapis.com/flutter_infra/releases/", Field("Channel",
    Text("/", Field("OS", Text("/flutter_", Field("OS", Text("_", Field("Version",
    Text("-", Field("Channel", Text(".", Field("Extension", End))))))))))))

  /** The fields the URL template is rendered with. */
  datatype UrlData = UrlData(channel: string, os: string, arch: string, version: string, extension: string)

  /**
   * A `version_channel` spec names the channel; with more than one `_` only
   * the text before the first is kept and the channel stays "stable".
   */
  function VersionAndChannel(version: string): (string, string)
  {
    var parts := Split(version, '_');
    if |parts| > 2 then (parts[0], "stable")
    else if |parts| == 2 then (parts[0], parts[1])
    else (version, "stable")
  }

  /** Without `_` the whole spec is the version, on the stable channel. */
  lemma VersionWithoutChannel(v: string)
    requires '_' !in v
    ensures VersionAndChannel(v) == (v, "stable")
  {
  }

  lemma VersionWithChannel(v: string, ch: string)
    requires '_' !in v && '_' !in ch
    ensures VersionAndChannel(v + "_" + ch) == (v, ch)
  {
    assert v + "_" + ch == v + ['_'] + ch;
    SplitAfter(v, '_', ch);
  }

  /** A second `_` drops the channel: only the text before the first is kept. */
  lemma VersionWithExtraUnderscores(v: string, ch: string, rest: string)
    requires '_' !in v && '_' !in ch
    ensures VersionAndChannel(v + "_" + ch + "_" + rest) == (v, "stable")
  {
    assert v + "_" + ch + "_" + rest == v + ['_'] + (ch + ['_'] + rest);
    SplitAfter(v, '_', ch + ['_'] + rest);
    SplitAfter(ch, '_', rest);
  }

  function UrlFields(version: string, opsys: string, arch: string): (d: UrlData)
  {
    var (v, channel) := VersionAndChannel(version);
    UrlData(channel,
            if opsys == "darwin" then "macos" else opsys,
            if arch == "amd64" then "x64" else arch,
            DownloadUrlVersion(v),
            if opsys == "darwin" then "zip" else "tar.xz")
  }

  function AsMap(d: UrlData): (m: map<string, string>)
    ensures Value(m, "Channel") == d.channel && Value(m, "OS") == d.os && Value(m, "Arch") == d.arch
    ensures Value(m, "Version") == d.version && Value(m, "Extension") == d.extension
  {
    map["Channel" := d.channel, "OS" := d.os, "Arch" := d.arch, "Version" := d.version, "Extension" := d.extension]
  }

  /** `DownloadURL` for the detected OS and architecture. */
  function DownloadUrl(version: string, opsys: string, arch: string): string
  {
    Render(UrlTemplate, AsMap(UrlFields(version, opsys, arch)))
  }

  /** The template read off piece by piece, after whatever was written before it. */
  lemma UrlTemplateRendersTo(d: map<string, string>, out: string)
    ensures RenderTo(UrlTemplate, d, out) == out + "https://storage.googleapis.com/flutter_infra/releases/" + Value(d, "Channel") + "/" + Value(d, "OS") + "/flutter_" + Value(d, "OS") + "_" + Value(d, "Version") + "-" + Value(d, "Channel") + "." + Value(d, "Extension")
  {
    assert RenderTo(UrlTemplate, d, out) == RenderTo(UrlTemplate.rest, d, out + "https://storage.googleapis.com/flutter_infra/releases/");
    assert RenderTo(UrlTemplate, d, out) == RenderTo(UrlTemplate.rest.rest, d, out + "https://storage.googleapis.com/flutter_infra/releases/" + Value(d, "Channel"));
    assert RenderTo(UrlTemplate, d, out) == RenderTo(UrlTemplate.rest.rest.rest, d, out + "https://storage.googleapis.com/flutter_infra/releases/" + Value(d, "Channel") + "/");
    assert RenderTo(UrlTemplate, d, out) == RenderTo(UrlTemplate.rest.rest.rest.rest, d, out + "https://storage.googleapis.com/flutter_infra/releases/" + Value(d, "Channel") + "/" + Value(d, "OS"));
    assert RenderTo(UrlTemplate, d, out) == RenderTo(UrlTemplate.rest.rest.rest.rest.rest, d, out + "https://storage.googleapis.com/flutter_infra/releases/" + Value(d, "Channel") + "/" + Value(d, "OS") + "/flutter_");
    assert RenderTo(UrlTemplate, d, out) == RenderTo(UrlTemplate.rest.rest.rest.rest.rest.rest, d, out + "https://storage.googleapis.com/flutter_infra/releases/" + Value(d, "Channel") + "/" + Value(d, "OS") + "/flutter_" + Value(d, "OS"));
    assert RenderTo(UrlTemplate, d, out) == RenderTo(UrlTemplate.rest.rest.rest.rest.rest.rest.rest, d, out + "https://storage.googleapis.com/flutter_infra/releases/" + Value(d, "Channel") + "/" + Value(d, "OS") + "/flutter_" + Value(d, "OS") + "_");
    assert RenderTo(UrlTemplate, d, out) == RenderTo(UrlTemplate.rest.rest.rest.rest.rest.rest.rest.rest, d, out + "https://storage.googleapis.com/flutter_infra/releases/" + Value(d, "Channel") + "/" + Value(d, "OS") + "/flutter_" + Value(d, "OS") + "_" + Value(d, "Version"));
    assert RenderTo(UrlTemplate, d, out) == RenderTo(UrlTemplate.rest.rest.rest.rest.rest.rest.rest.rest.rest, d, out + "https://storage.googleapis.com/flutter_infra/releases/" + Value(d, "Channel") + "/" + Value(d, "OS") + "/flutter_" + Value(d, "OS") + "_" + Value(d, "Version") + "-");
    assert RenderTo(UrlTemplate, d, out) == RenderTo(UrlTemplate.rest.rest.rest.rest.rest.rest.rest.rest.rest.rest, d, out + "https://storage.googleapis.com/flutter_infra/releases/" + Value(d, "Channel") + "/" + Value(d, "OS") + "/flutter_" + Value(d, "OS") + "_" + Value(d, "Version") + "-" + Value(d, "Channel"));
    assert RenderTo(UrlTemplate, d, out) == RenderTo(UrlTemplate.rest.rest.rest.rest.rest.rest.rest.rest.rest.rest.rest, d, out + "https://storage.googleapis.com/flutter_infra/releases/" + Value(d, "Channel") + "/" + Value(d, "OS") + "/flutter_" + Value(d, "OS") + "_" + Value(d, "Version") + "-" + Value(d, "Channel") + ".");
    assert RenderTo(UrlTemplate, d, out) == RenderTo(UrlTemplate.rest.rest.rest.rest.rest.rest.rest.rest.rest.rest.rest.rest, d, out + "https://storage.googleapis.com/flutter_infra/releases/" + Value(d, "Channel") + "/" + Value(d, "OS") + "/flutter_" + Value(d, "OS") + "_" + Value(d, "Version") + "-" + Value(d, "Channel") + "." + Value(d, "Extension"));
  }

  lemma UrlTemplateRenders(d: map<string, string>)
    ensures Render(UrlTemplate, d) == "https://storage.googleapis.com/flutter_infra/releases/" + Value(d, "Channel") + "/" + Value(d, "OS") + "/flutter_" + Value(d, "OS") + "_" + Value(d, "Version") + "-" + Value(d, "Channel") + "." + Value(d, "Extension")
  {
    UrlTemplateRendersTo(d, "");
    assert "" + "https://storage.googleapis.com/flutter_infra/releases/" == "https://storage.googleapis.com/flutter_infra/releases/";
  }

  /** The URL spelled out: channel folder, OS folder, file name; macOS downloads a zip. */
  lemma DownloadUrlShape(version: string, opsys: string, arch: string)
    ensures var (v, ch) := VersionAndChannel(version);
      var os := if opsys == "darwin" then "macos" else opsys;
      var ext := if opsys == "darwin" then "zip" else "tar.xz";
      DownloadUrl(version, opsys, arch)
        == "https://storage.googleapis.com/flutter_infra/releases/" + ch + "/" + os
           + "/flutter_" + os + "_" + DownloadUrlVersion(v) + "-" + ch + "." + ext
  {
    var d := AsMap(UrlFields(version, opsys, arch));
    UrlTemplateRenders(d);
  }

  /** The architecture is normalised but the template never uses it. */
  lemma DownloadUrlIgnoresArch(version: string, opsys: string, arch1: string, arch2: string)
    ensures DownloadUrl(version, opsys, arch1) == DownloadUrl(version, opsys, arch2)
  {
    var f1, f2 := UrlFields(version, opsys, arch1), UrlFields(version, opsys, arch2);
    assert f2 == f1.(arch := f2.arch);
    AsMapArch(f1, f2.arch);
    UrlTemplateArchFree();
    RenderIgnoresUnreferenced(UrlTemplate, AsMap(f1), "Arch", f2.arch, "");
  }

  /** Only the `Arch` entry of the data depends on the architecture. */
  lemma AsMapArch(d: UrlData, arch: string)
    ensures AsMap(d.(arch := arch)) == AsMap(d)["Arch" := arch]
  {
  }

  /** The template does not reference `Arch`. */
  lemma UrlTemplateArchFree()
    ensures "Arch" !in Refs(UrlTemplate)
  {
  }

  // ---------------------------------------------------------------------------
  // Installation

  /** `ToolsDir/flutter/flutter-VERSION`, the directory the archive is extracted into. */
  function InstallDir(toolsDir: string, version: string): string {
    PathJoin(PathJoin(toolsDir, "flutter"), "flutter-" + version)
  }

  /** The `flutter` directory inside it, whose presence means "installed". */
  function FlutterDir(toolsDir: string, version: string): string {
    PathJoin(InstallDir(toolsDir, version), "flutter")
  }

  /** Distinct versions never share an install directory. */
  lemma InstallDirInjective(toolsDir: string, v1: string, v2: string)
    requires InstallDir(toolsDir, v1) == InstallDir(toolsDir, v2)
    ensures v1 == v2
  {
    PathJoinInjective(PathJoin(toolsDir, "flutter"), "flutter-" + v1, "flutter-" + v2);
    BracketInjective("flutter-", v1, v2, "");
    assert "flutter-" + v1 + "" == "flutter-" + v1 && "flutter-" + v2 + "" == "flutter-" + v2;
  }

  method Install(t: Machine, spec: ToolSpec, opsys: string, arch: string)
    returns (dir: string, err: Option<ToolError>)
    modifies t
    ensures t.env == old(t.env)
    ensures var installDir := InstallDir(t.toolsDir, spec.version);
      var flutterDir := FlutterDir(t.toolsDir, spec.version);
      var url := DownloadUrl(spec.version, opsys, arch);
      if flutterDir in old(t.paths) then
        dir == flutterDir && err == None && t.actions == old(t.actions) && t.paths == old(t.paths)
      else if t.fetch(url).None? then
        dir == "" && err == Some(DownloadFailed(url))
        && t.actions == old(t.actions) + [Download(url)] && t.paths == old(t.paths)
      else
        var local := t.fetch(url).value;
        var x := t.extract(local, installDir);
        && t.actions == old(t.actions) + [Download(url), Unarchive(local, installDir)]
        && t.paths == old(t.paths) + x.created
        && (if x.ok then dir == flutterDir && err == None
            else dir == "" && err == Some(UnarchiveFailed(local, installDir)))
  {
    var installDir := InstallDir(t.toolsDir, spec.version);
    var flutterDir := PathJoin(installDir, "flutter");
    var installed := t.PathExists(flutterDir);
    if installed {
      return flutterDir, None;
    }
    var url := DownloadUrl(spec.version, opsys, arch);
    var localFile := t.DownloadFile(url);
    if localFile.None? {
      return "", Some(DownloadFailed(url));
    }
    var ok := t.Unarchive(localFile.value, installDir);
    if !ok {
      return "", Some(UnarchiveFailed(localFile.value, installDir));
    }
    return flutterDir, None;
  }

  /** `Setup`: puts `flutterDir/bin` in front of the target's PATH; it never fails. */
  method Setup(t: Machine, flutterDir: string)
    modifies t
    ensures t.actions == old(t.actions) + [PrependToPath(PathJoin(flutterDir, "bin"))]
    ensures t.env == old(t.env)["PATH" := PathJoin(flutterDir, "bin") + ":" + Getenv(old(t.env), "PATH")]
    ensures t.paths == old(t.paths)
  {
    t.PrependToPath(PathJoin(flutterDir, "bin"));
  }
}
