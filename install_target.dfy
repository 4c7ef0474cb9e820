/**
 * The machine a toolchain is installed on: the paths that exist on its
 * filesystem, its process environment, and a log of the effectful calls a
 * provider makes on it. What a download or an extraction yields is decided by
 * two oracles fixed when the machine is created.
 */
module InstallTarget {
  import opened Wrappers

  /** An effectful call on the machine, in the order it was made. */
  datatype Action =
    | Download(url: string)
    | Unarchive(archive: string, dest: string)
    | Mkdir(path: string)
    | Run(command: string, dir: string)
    | PrependToPath(dir: string)

  /** What an extraction leaves behind: the paths it created, and whether it finished. */
  datatype Extraction = Extraction(created: set<string>, ok: bool)

  /** `os.Getenv`: an unset variable reads as the empty string. */
  function Getenv(env: map<string, string>, key: string): string {
    if key in env then env[key] else ""
  }

  class Machine {
    var paths: set<string>
    var env: map<string, string>
    var actions: seq<Action>
    /** The directory under which tools are installed (`ToolsDir`). */
    const toolsDir: string
    /** The local file a download of a URL produces, or None when it fails. */
    const fetch: string -> Option<string>
    /** What extracting an archive into a directory does. */
    const extract: (string, string) -> Extraction

    constructor (paths0: set<string>, env0: map<string, string>, toolsDir: string,
                 fetch: string -> Option<string>, extract: (string, string) -> Extraction)
      ensures paths == paths0 && env == env0 && actions == []
      ensures this.toolsDir == toolsDir && this.fetch == fetch && this.extract == extract
    {
      paths, env, actions := paths0, env0, [];
      this.toolsDir, this.fetch, this.extract := toolsDir, fetch, extract;
    }

    method PathExists(path: string) returns (b: bool)
      ensures b <==> path in paths
    {
      b := path in paths;
    }

    method DownloadFile(url: string) returns (local: Option<string>)
      modifies this
      ensures local == fetch(url)
      ensures actions == old(actions) + [Download(url)]
      ensures paths == old(paths) && env == old(env)
    {
      local := fetch(url);
      actions := actions + [Download(url)];
    }

    method Unarchive(archive: string, dest: string) returns (ok: bool)
      modifies this
      ensures ok == extract(archive, dest).ok
      ensures paths == old(paths) + extract(archive, dest).created
      ensures actions == old(actions) + [Action.Unarchive(archive, dest)]
      ensures env == old(env)
    {
      var x := extract(archive, dest);
      ok := x.ok;
      paths := paths + x.created;
      actions := actions + [Action.Unarchive(archive, dest)];
    }

    method MkdirAsNeeded(path: string)
      modifies this
      ensures paths == old(paths) + {path}
      ensures actions == old(actions) + [Mkdir(path)]
      ensures env == old(env)
    {
      paths := paths + {path};
      actions := actions + [Mkdir(path)];
    }

    /** Runs a process; the callers in this core ignore its outcome. */
    method Run(command: string, dir: string)
      modifies this
      ensures actions == old(actions) + [Action.Run(command, dir)]
      ensures paths == old(paths) && env == old(env)
    {
      actions := actions + [Action.Run(command, dir)];
    }

    /** Puts `dir` in front of PATH, `:`-separated, and logs the change. */
    method PrependToPath(dir: string)
      modifies this
      ensures actions == old(actions) + [Action.PrependToPath(dir)]
      ensures env == old(env)["PATH" := dir + ":" + Getenv(old(env), "PATH")]
      ensures paths == old(paths)
    {
      actions := actions + [Action.PrependToPath(dir)];
      env := env["PATH" := dir + ":" + Getenv(env, "PATH")];
    }

    method GetEnv(key: string) returns (value: string)
      ensures value == Getenv(env, key)
    {
      value := if key in env then env[key] else "";
    }

    method SetEnv(key: string, value: string)
      modifies this
      ensures env == old(env)[key := value]
      ensures paths == old(paths) && actions == old(actions)
    {
      env := env[key := value];
    }
  }
}
