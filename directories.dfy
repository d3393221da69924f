/** ConfigDir, StateDir and DataDir: where the CLI keeps its configuration, state and data,
    chosen from the environment and the platform. */
module Directories {
  import opened Paths
  import opened Errors
  import opened FileSystems
  import opened Relocation

  const InstillConfigDir := "INSTILL_CONFIG_DIR"
  const XdgConfigHome := "XDG_CONFIG_HOME"
  const XdgStateHome := "XDG_STATE_HOME"
  const XdgDataHome := "XDG_DATA_HOME"
  const AppData := "AppData"
  const LocalAppData := "LocalAppData"

  /** The value of runtime.GOOS on Windows. */
  const Windows := "windows"

  /** The process environment. */
  type Environment = map<string, string>

  /** os.Getenv: an unset variable reads as "". */
  function Getenv(env: Environment, name: string): string
  {
    if name in env then env[name] else ""
  }

  /** `d, _ := os.UserHomeDir()`: a failed lookup gives "". */
  function HomeOrEmpty(home: Option<Path>): Path
  {
    if home.Some? then home.value else ""
  }

  /** One level of a precedence chain: a variable that, when set (and, for a Windows-only
      level, when running on Windows), gives the directory with suffix joined on. */
  datatype Level = Level(variable: string, windowsOnly: bool, suffix: seq<string>)

  /** The first level of the chain that applies, else the fallback. */
  function Resolve(levels: seq<Level>, env: Environment, goos: string, fallback: Path): Path
    decreases |levels|
  {
    if levels == [] then fallback
    else
      var v := Getenv(env, levels[0].variable);
      if v != "" && (!levels[0].windowsOnly || goos == Windows) then JoinAll(v, levels[0].suffix)
      else Resolve(levels[1..], env, goos, fallback)
  }

  const ConfigLevels := [Level(InstillConfigDir, false, []),
                         Level(XdgConfigHome, false, ["instill"]),
                         Level(AppData, true, ["Instill CLI"])]

  const StateLevels := [Level(XdgStateHome, false, ["instill"]),
                        Level(LocalAppData, true, ["Instill CLI"])]

  const DataLevels := [Level(XdgDataHome, false, ["instill"]),
                       Level(LocalAppData, true, ["Instill CLI"])]

  /** The path ConfigDir chooses. */
  function ConfigDirPath(env: Environment, goos: string, home: Option<Path>): (path: Path)
    ensures Getenv(env, InstillConfigDir) != "" ==> path == Getenv(env, InstillConfigDir)
    ensures Getenv(env, InstillConfigDir) == "" && Getenv(env, XdgConfigHome) != "" ==>
              path == Join(Getenv(env, XdgConfigHome), "instill")
    ensures path != ""
  {
    if Getenv(env, InstillConfigDir) != "" then Getenv(env, InstillConfigDir)
    else if Getenv(env, XdgConfigHome) != "" then Join(Getenv(env, XdgConfigHome), "instill")
    else if goos == Windows && Getenv(env, AppData) != "" then Join(Getenv(env, AppData), "Instill CLI")
    else JoinAll(HomeOrEmpty(home), [".config", "instill"])
  }

  /** The path StateDir chooses; it is never empty. */
  function StateDirPath(env: Environment, goos: string, home: Option<Path>): (path: Path)
    ensures Getenv(env, XdgStateHome) != "" ==> path == Join(Getenv(env, XdgStateHome), "instill")
    ensures path != ""
  {
    if Getenv(env, XdgStateHome) != "" then Join(Getenv(env, XdgStateHome), "instill")
    else if goos == Windows && Getenv(env, LocalAppData) != "" then Join(Getenv(env, LocalAppData), "Instill CLI")
    else JoinAll(HomeOrEmpty(home), [".local", "instill", "state"])
  }

  /** DataDir: it only computes a path and never touches the filesystem. */
  function DataDir(env: Environment, goos: string, home: Option<Path>): (path: Path)
    ensures Getenv(env, XdgDataHome) != "" ==> path == Join(Getenv(env, XdgDataHome), "instill")
    ensures path != ""
  {
    if Getenv(env, XdgDataHome) != "" then Join(Getenv(env, XdgDataHome), "instill")
    else if goos == Windows && Getenv(env, LocalAppData) != "" then Join(Getenv(env, LocalAppData), "Instill CLI")
    else JoinAll(HomeOrEmpty(home), [".local", "share", "instill"])
  }

  /** ConfigDir's if-chain is its precedence chain: the first level whose variable is set
      (Windows-only levels only on Windows), else the home-relative default. */
  lemma ConfigPrecedence(env: Environment, goos: string, home: Option<Path>)
    ensures ConfigDirPath(env, goos, home) ==
      Resolve(ConfigLevels, env, goos, JoinAll(HomeOrEmpty(home), [".config", "instill"]))
  {
    var c := ConfigLevels;
    assert c[1..] == [c[1], c[2]] && c[1..][1..] == [c[2]] && c[1..][1..][1..] == [];
    var fallback := JoinAll(HomeOrEmpty(home), [".config", "instill"]);
    var appData, xdg := Getenv(env, AppData), Getenv(env, XdgConfigHome);
    assert Resolve(c[1..][1..], env, goos, fallback) ==
      if appData != "" && goos == Windows then Join(appData, "Instill CLI") else fallback;
    assert Resolve(c[1..], env, goos, fallback) ==
      if xdg != "" then Join(xdg, "instill") else Resolve(c[1..][1..], env, goos, fallback);
  }

  /** StateDir's if-chain is its precedence chain. */
  lemma StatePrecedence(env: Environment, goos: string, home: Option<Path>)
    ensures StateDirPath(env, goos, home) ==
      Resolve(StateLevels, env, goos, JoinAll(HomeOrEmpty(home), [".local", "instill", "state"]))
  {
    var st := StateLevels;
    assert st[1..] == [st[1]] && st[1..][1..] == [];
    var stFallback := JoinAll(HomeOrEmpty(home), [".local", "instill", "state"]);
    assert Resolve(st[1..][1..], env, goos, stFallback) == stFallback;
  }

  /** DataDir's if-chain is its precedence chain. */
  lemma DataPrecedence(env: Environment, goos: string, home: Option<Path>)
    ensures DataDir(env, goos, home) ==
      Resolve(DataLevels, env, goos, JoinAll(HomeOrEmpty(home), [".local", "share", "instill"]))
  {
    var d := DataLevels;
    assert d[1..] == [d[1]] && d[1..][1..] == [];
    var dFallback := JoinAll(HomeOrEmpty(home), [".local", "share", "instill"]);
    assert Resolve(d[1..][1..], env, goos, dFallback) == dFallback;
  }

  /** Off Windows, a variable that only Windows-only levels consult has no effect. */
  lemma {:induction false} ResolveIgnoresWindowsOnly(levels: seq<Level>, env: Environment, goos: string,
                                                    fallback: Path, name: string, v: string)
    requires goos != Windows
    requires forall i :: 0 <= i < |levels| && levels[i].variable == name ==> levels[i].windowsOnly
    ensures Resolve(levels, env[name := v], goos, fallback) == Resolve(levels, env, goos, fallback)
    decreases |levels|
  {
    if levels != [] {
      assert levels[0].variable != name ==>
        Getenv(env[name := v], levels[0].variable) == Getenv(env, levels[0].variable);
      ResolveIgnoresWindowsOnly(levels[1..], env, goos, fallback, name, v);
    }
  }

  /** AppData and LocalAppData matter only on Windows. */
  lemma AppDataOnlyOnWindows(env: Environment, goos: string, home: Option<Path>, v: string)
    requires goos != Windows
    ensures ConfigDirPath(env[AppData := v], goos, home) == ConfigDirPath(env, goos, home)
    ensures StateDirPath(env[LocalAppData := v], goos, home) == StateDirPath(env, goos, home)
    ensures DataDir(env[LocalAppData := v], goos, home) == DataDir(env, goos, home)
  {
    ResolveIgnoresWindowsOnly(ConfigLevels, env, goos, JoinAll(HomeOrEmpty(home), [".config", "instill"]), AppData, v);
    ResolveIgnoresWindowsOnly(StateLevels, env, goos, JoinAll(HomeOrEmpty(home), [".local", "instill", "state"]), LocalAppData, v);
    ResolveIgnoresWindowsOnly(DataLevels, env, goos, JoinAll(HomeOrEmpty(home), [".local", "share", "instill"]), LocalAppData, v);
  }

  /** ConfigDir: the chosen path, after an opportunistic migration from the historical
      directory when the path is not a directory yet and INSTILL_CONFIG_DIR is unset. */
  method ConfigDir(fs: FileSystem, env: Environment, goos: string, home: Option<Path>) returns (path: Path)
    modifies fs
    ensures path == ConfigDirPath(env, goos, home)
    ensures !DirExists(old(fs.entries), path) && Getenv(env, InstillConfigDir) == "" ==>
              fs.entries == AutoMigrateConfigDirIn(old(fs.entries), home, path).entries
    ensures DirExists(old(fs.entries), path) || Getenv(env, InstillConfigDir) != "" ==>
              fs.entries == old(fs.entries)
  {
    path := ConfigDirPath(env, goos, home);
    if !DirExists(fs.entries, path) && Getenv(env, InstillConfigDir) == "" {
      var _ := AutoMigrateConfigDir(fs, home, path);
    }
  }

  /** StateDir: the chosen path, after an opportunistic migration of state.yml when the
      path is not a directory yet. */
  method StateDir(fs: FileSystem, env: Environment, goos: string, home: Option<Path>) returns (path: Path)
    modifies fs
    ensures path == StateDirPath(env, goos, home)
    ensures !DirExists(old(fs.entries), path) ==>
              fs.entries == AutoMigrateStateDirIn(old(fs.entries), home, path).entries
    ensures DirExists(old(fs.entries), path) ==> fs.entries == old(fs.entries)
  {
    path := StateDirPath(env, goos, home);
    if !DirExists(fs.entries, path) {
      var _ := AutoMigrateStateDir(fs, home, path);
    }
  }

  /** The filesystem ConfigDir leaves behind. */
  function ConfigDirEffect(fs: Entries, env: Environment, goos: string, home: Option<Path>): Entries
  {
    var path := ConfigDirPath(env, goos, home);
    if !DirExists(fs, path) && Getenv(env, InstillConfigDir) == "" then
      AutoMigrateConfigDirIn(fs, home, path).entries
    else fs
  }

  /** ConfigDir moves the historical directory into place when the chosen path is free,
      INSTILL_CONFIG_DIR is unset, the historical directory exists, the two paths are
      unrelated and MkdirAll can create the chosen path's parent. */
  lemma ConfigDirMigrates(fs: Entries, env: Environment, goos: string, home: Option<Path>)
    requires Getenv(env, InstillConfigDir) == "" && home.Some?
    requires var path, legacy := ConfigDirPath(env, goos, home), LegacyConfigDir(home.value);
      && DirExists(fs, legacy) && path !in fs
      && !IsWithin(path, legacy) && !IsWithin(legacy, path)
      && MkdirAllIn(fs, Dir(path)).Ok?
    ensures var path, legacy := ConfigDirPath(env, goos, home), LegacyConfigDir(home.value);
      && IsMove(fs, ConfigDirEffect(fs, env, goos, home), legacy, path)
      && DirExists(ConfigDirEffect(fs, env, goos, home), path)
  {
    var path, legacy := ConfigDirPath(env, goos, home), LegacyConfigDir(home.value);
    MigrateDirSucceeds(fs, legacy, path);
    MigrateDirIsMove(fs, legacy, path);
  }

  /** StateDir moves the historical state.yml into place under the same kind of
      conditions. */
  lemma StateDirMigrates(fs: Entries, env: Environment, goos: string, home: Option<Path>)
    requires home.Some?
    requires var path, legacy := StateDirPath(env, goos, home), LegacyConfigDir(home.value);
      && DirExists(fs, legacy) && path !in fs && legacy != path
      && FileExists(fs, Join(legacy, StateFileName)) && Join(path, StateFileName) !in fs
      && !IsWithin(Join(path, StateFileName), Join(legacy, StateFileName))
      && !IsWithin(Join(legacy, StateFileName), Join(path, StateFileName))
      && MkdirAllIn(fs, path).Ok?
    ensures var path, legacy := StateDirPath(env, goos, home), LegacyConfigDir(home.value);
      var after := AutoMigrateStateDirIn(fs, home, path).entries;
      && IsMove(fs, after, Join(legacy, StateFileName), Join(path, StateFileName))
      && FileExists(after, Join(path, StateFileName))
  {
    var path, legacy := StateDirPath(env, goos, home), LegacyConfigDir(home.value);
    assert '/' !in StateFileName;
    MigrateFileSucceeds(fs, legacy, path, StateFileName);
    MigrateFileIsMove(fs, legacy, path, StateFileName);
  }

  /** ConfigFile: config.yml in the configuration directory. */
  method ConfigFile(fs: FileSystem, env: Environment, goos: string, home: Option<Path>) returns (path: Path)
    modifies fs
    ensures path == Join(ConfigDirPath(env, goos, home), "config.yml")
    ensures fs.entries == ConfigDirEffect(old(fs.entries), env, goos, home)
  {
    var dir := ConfigDir(fs, env, goos, home);
    path := Join(dir, "config.yml");
  }

  /** HostsConfigFile: hosts.yml in the configuration directory. */
  method HostsConfigFile(fs: FileSystem, env: Environment, goos: string, home: Option<Path>) returns (path: Path)
    modifies fs
    ensures path == Join(ConfigDirPath(env, goos, home), "hosts.yml")
    ensures fs.entries == ConfigDirEffect(old(fs.entries), env, goos, home)
  {
    var dir := ConfigDir(fs, env, goos, home);
    path := Join(dir, "hosts.yml");
  }
}
