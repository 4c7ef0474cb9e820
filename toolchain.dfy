/** What every toolchain provider shares: its tool spec, its errors and its major version. */
module Toolchain {
  import opened Wrappers
  import opened Text
  import opened InstallTarget

  /** The resolved configuration a provider is created with. */
  datatype ToolSpec = ToolSpec(version: string, sharedCacheDir: string, packageCacheDir: string)

  datatype ToolError =
    | DownloadFailed(url: string)
    | UnarchiveFailed(archive: string, dest: string)

  /**
   * `strings.Split(version, ".")[0]`: the text before the first `.`, or the
   * whole version when it has none. Every provider computes it the same way.
   */
  function MajorVersion(version: string): (major: string)
    ensures '.' !in major
    ensures HasPrefix(version, major)
    ensures major == version || version[|major|] == '.'
  {
    Split(version, '.')[0]
  }

  /** The major version of `MAJOR.REST` is `MAJOR`. */
  lemma MajorVersionOf(major: string, rest: string)
    requires '.' !in major
    ensures MajorVersion(major + "." + rest) == major
  {
    assert major + "." + rest == major + ['.'] + rest;
    SplitAfter(major, '.', rest);
  }

  /**
   * The install step the Gradle and Maven providers share: nothing to do when
   * `installed` exists; otherwise download `url` and unpack it into `dest`,
   * failing with the first step that fails.
   */
  method InstallArchive(t: Machine, installed: string, url: string, dest: string)
    returns (err: Option<ToolError>)
    modifies t
    ensures t.env == old(t.env)
    ensures if installed in old(t.paths) then
        err == None && t.actions == old(t.actions) && t.paths == old(t.paths)
      else if t.fetch(url).None? then
        err == Some(DownloadFailed(url)) && t.actions == old(t.actions) + [Download(url)]
        && t.paths == old(t.paths)
      else
        var local := t.fetch(url).value;
        var x := t.extract(local, dest);
        && t.actions == old(t.actions) + [Download(url), Unarchive(local, dest)]
        && t.paths == old(t.paths) + x.created
        && err == (if x.ok then None else Some(UnarchiveFailed(local, dest)))
  {
    var present := t.PathExists(installed);
    if present {
      return None;
    }
    var localFile := t.DownloadFile(url);
    if localFile.None? {
      return Some(DownloadFailed(url));
    }
    var ok := t.Unarchive(localFile.value, dest);
    err := if ok then None else Some(UnarchiveFailed(localFile.value, dest));
  }
}
