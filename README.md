# instill-cli configuration files, modelled in Dafny

This project models `internal/config/config_file.go` of the instill CLI. That file decides
where the CLI keeps its configuration, state and data. It also moves configuration out of
the historical `~/.config/instill` directory and upgrades legacy configuration documents.
The model replaces the operating system by an abstract filesystem, a map from paths to
directories and regular files. It replaces the environment by a map from names to values,
`runtime.GOOS` by a string, and `os.UserHomeDir` by an optional path. The yaml library is
replaced by an abstract node tree, with its parsers passed in as functions.

Modules, leaf first:

- `Paths` (`paths.dfy`): `filepath.Join` and `filepath.Dir` on slash-separated strings. Also
  path containment (`IsWithin`) and rebasing a path under a renamed directory.
- `Errors` (`errors.dfy`): the error values. `errSamePath` is `SamePath`. `errNotExist` is
  `MigrateNotExist`, a value distinct from the os "not exist" error `NotExist`. The
  `fmt.Errorf` wrappings are `LegacyDecode`, `BackupFailed`, `MigratingLegacy` and `Reparse`.
- `FileSystems` (`filesystem.dfy`): the entries map and the `dirExists` / `fileExists`
  predicates (`DirExists`, `FileExists`). It also holds `os.Rename`, which moves a whole
  subtree, and `os.MkdirAll`, which creates missing ancestors or fails on a regular file.
  Class `FileSystem` holds the process's filesystem and changes it in place.
- `PathErrors` (`path_errors.dfy`): `findRegularFile` as a loop proved against a recursive
  specification, and `pathError`.
- `DocumentIO` (`document_io.dfy`): `ReadConfigFile`, `WriteConfigFile` and
  `BackupConfigFile`.
- `Relocation` (`relocation.dfy`): `migrateDir`, `migrateFile`, `autoMigrateConfigDir` and
  `autoMigrateStateDir`. Each is a method on the filesystem with a specification function
  (`MigrateDirIn`, ...) beside it.
- `Directories` (`directories.dfy`): `ConfigDir`, `StateDir` and `DataDir`. Each path choice
  is a pure function. The directory lookups with their opportunistic migration are methods.
  A table-driven reference, `Resolve` over precedence `Level`s, is proved equal to the three
  Go if-chains. `DataDir` is only a function: it never touches the filesystem.
- `Documents` (`documents.dfy`): `yaml.Node` reduced to kind, value and content;
  `parseConfigData`'s normalisation; `isLegacy`.
- `External` (`external.dfy`): the collaborators outside the file. These are the two yaml
  unmarshal targets, whether `Config.Set` accepts a call, what `Config.Write` serialises,
  and `NewBlankRoot()`.
- `LegacyConversion` (`legacy_conversion.dfy`): `migrateConfig`. Its two loops are the
  methods `SetHost` and `SetHosts`. They drive a `Config` recorder of `Set` calls. The
  backup and write follow.
- `ConfigLoading` (`config_loading.dfy`): `parseConfigFile`, `parseConfig` (the choice
  between legacy conversion and the hosts merge, and the splice) and `ParseDefaultConfig`.

The model follows the code in two places where a reader might expect otherwise:

- The `StateDir` doc comment says `XDG_CONFIG_HOME` (line 52), but the code reads
  `XDG_STATE_HOME` (line 57).
- `isLegacy` looks at every node of the top-level mapping's content, keys and values alike
  (lines 243-247), not only at the value positions.

## Model

| member | source | states |
|---|---|---|
| Paths.Dir | internal/config/config_file.go:340-341 | Unless it reaches `"/"` or `"."`, the parent is a strictly shorter proper prefix ending before a separator. This is what makes the upward walk terminate. |
| Paths.DirOfJoin | internal/config/config_file.go:122-129 | `filepath.Dir(filepath.Join(base, name))` is `base` for a single-element name, including the root `"/"`. So the MkdirAll before migrateFile's rename targets the new directory itself. MigrateFileSucceeds relies on this. |
| Paths.Join | internal/config/config_file.go:122-123 | `filepath.Join(base, name)` puts name below base. For a base other than `""` and `"/"`, the result lies within base and is longer by the separator and the name. Below `"/"`, it is `"/"` followed by the name without a doubled separator. |
| Paths.JoinAll | internal/config/config_file.go:39 | `filepath.Join(base, names...)` extends base: base is a prefix of the result. |
| Paths.JoinInjective | internal/config/config_file.go:122-123 | Joining the same name to two different bases gives two different paths, so migrateFile's two names differ when its two directories do. |
| FileSystems.RenameIsMove | internal/config/config_file.go:143 | A successful `os.Rename` is a move. The source and its subtree are gone, the destination holds the source entry, every entry below the source reappears below the destination, entries outside both are kept, and nothing else appears. |
| FileSystems.MkdirAllOnlyAddsDirectories | internal/config/config_file.go:142 | A successful `os.MkdirAll` keeps every existing entry, only adds directories, and leaves its path a directory. |
| FileSystems.MkdirAllBlockedByRegularFile | internal/config/config_file.go:184-187 | When MkdirAll of a non-empty path fails, the ENOTDIR it reports names a non-empty path no longer than the argument. This is where pathError starts its search. |
| FileSystems.MkdirAllIn | internal/config/config_file.go:142 | `os.MkdirAll` succeeds at once on a root or an existing directory. It fails only with ENOTDIR, naming an existing regular file. |
| FileSystems.RenameIn | internal/config/config_file.go:143 | `os.Rename` of a missing source fails with the not-exist error. A destination that is an existing directory is refused (EEXIST), even when it is the source itself. Renaming a file onto itself is a no-op success. Every other failure is a rename error. A successful move of two different paths has an existing source, paths not nested in each other, and an existing destination parent. |
| FileSystems.MkdirAllBestEffort | internal/config/config_file.go:129 | The discarded-error `os.MkdirAll` keeps every existing entry and adds only directories. When MkdirAll succeeds, the path is a directory afterwards. |
| FileSystems.OpenError | internal/config/config_file.go:169 | `os.Open` of a missing path reports ENOTDIR exactly when its nearest existing ancestor is a regular file, and ENOENT otherwise, both naming the path. |
| FileSystems.CreateIn | internal/config/config_file.go:191-201 | Open-create-truncate and write fails with EISDIR on a directory. It succeeds iff the path is not a directory and its parent exists. It then puts exactly `data` at the path and keeps every other entry. |
| FileSystems.DirExists | internal/config/config_file.go:146-149 | `dirExists` holds iff stat succeeds and `fileExists` does not. |
| FileSystems.FileExists | internal/config/config_file.go:151-154 | `fileExists` (stat succeeds, not a directory) is, with no special files, exactly a regular file. |
| FileSystems.FileSystem.Rename | internal/config/config_file.go:130 | The filesystem becomes the rename's result on success and is unchanged on error. |
| FileSystems.FileSystem.MkdirAll | internal/config/config_file.go:129 | The filesystem becomes MkdirAll's result on success and is unchanged on error. |
| FileSystems.FileSystem.Create | internal/config/config_file.go:191-201 | The filesystem becomes the create-and-write result on success and is unchanged on EISDIR or a missing parent. |
| PathErrors.FirstRegularFileFound | internal/config/config_file.go:335-347 | A non-empty search result is a regular file at some position k among p and its successive parents (stopping once the parent is p, `"/"` or `"."`). No path before position k is a regular file. |
| PathErrors.FirstRegularFileNone | internal/config/config_file.go:335-347 | An empty search result for a non-empty path means none of p and its successive parents is a regular file. |
| PathErrors.UnderRegularFileIsFound | internal/config/config_file.go:169-171 | When a missing path's nearest existing ancestor is a regular file (the ENOTDIR case of `os.Open`), the search finds a regular file. |
| PathErrors.FindRegularFile | internal/config/config_file.go:335-347 | The loop that reassigns `p` terminates and returns what the search specification gives. |
| PathErrors.PathError | internal/config/config_file.go:324-333 | Errors other than ENOTDIR pass through unchanged. An ENOTDIR whose path has a regular file among its ancestors becomes "remove or rename regular file" naming the first one, the one findRegularFile returns. Otherwise the ENOTDIR stays as it was. |
| DocumentIO.ReadConfigFile | internal/config/config_file.go:168-181 | Reading succeeds iff the path is a regular file, and then yields its bytes. A directory gives EISDIR. A missing path below a regular file gives "remove or rename" naming the first regular file on its path. Any other missing path gives the os not-exist error. |
| DocumentIO.WriteThenRead | internal/config/config_file.go:183-204 | After a successful write, reading the file yields exactly the written bytes. A failure to create the parent directories changes nothing and becomes pathError's "remove or rename" error. |
| DocumentIO.WriteErrorKinds | internal/config/config_file.go:183-194 | A write fails only with an os error, as explained by pathError. A failed write keeps every entry that existed before. |
| DocumentIO.WriteConfigFile | internal/config/config_file.go:183-204 | The new filesystem and error are MkdirAll of the parent followed by create-and-write. A failed MkdirAll changes nothing. A failed create keeps the directories MkdirAll made, as Go does. |
| DocumentIO.BackupConfigFile | internal/config/config_file.go:206-208 | The backup is the rename of `filename` to `filename + ".bak"`. |
| DocumentIO.BackupKeepsContent | internal/config/config_file.go:206-208 | After a successful backup, the original path is gone and `.bak` holds the original entry verbatim. |
| DocumentIO.BlockedReadNamesFile | internal/config/config_file.go:168-172 | Reading `/x/y/z` when `/x/y` is a regular file reports `/x/y` as the file to remove, not `/x/y/z` and not `/x`. |
| Relocation.MigrateDirIsMove | internal/config/config_file.go:133-144 | When `migrateDir` reports no error, the paths differed, the old directory existed, and it was moved to the new path, which is now a directory. |
| Relocation.MigrateFileIsMove | internal/config/config_file.go:117-131 | When `migrateFile` reports no error, the old file existed and was moved to the same name under the new directory. |
| Relocation.MoveIn | internal/config/config_file.go:142-143 | The best-effort MkdirAll of the destination parent, then the rename. A failure is the rename's error and keeps every earlier entry. |
| Relocation.MoveIsMove | internal/config/config_file.go:142-143 | A successful MkdirAll-then-rename of two different paths is a move. The source subtree is gone and reappears under the destination, other entries are kept, and only directories are added besides. |
| Relocation.MigrateDirOntoDirectoryFails | internal/config/config_file.go:143 | migrateDir from `/a` to an existing directory `/b` fails with the rename error instead of replacing it. |
| Relocation.MoveSucceeds | internal/config/config_file.go:142-143 | The best-effort MkdirAll followed by the rename succeeds when: the source exists, the destination is free, neither path lies inside the other, and MkdirAll can create the destination's parent. |
| Relocation.MigrateDirSucceeds | internal/config/config_file.go:133-144 | `migrateDir` reports no error when: the old directory exists, the new path is free, neither lies inside the other, and the new path's parent can be created. |
| Relocation.MigrateFileSucceeds | internal/config/config_file.go:117-131 | `migrateFile` reports no error when: the file exists under the old directory, its name is free under a new directory that MkdirAll can create, and the two names are unrelated. |
| Relocation.MigrateDir | internal/config/config_file.go:133-144 | Equal paths give `errSamePath` and a missing source directory gives `errNotExist`, both with the filesystem unchanged. Otherwise the method performs the best-effort MkdirAll and then the rename. |
| Relocation.MigrateFile | internal/config/config_file.go:117-131 | Equal paths give `errSamePath` and a missing source file gives `errNotExist`, both with the filesystem unchanged. Otherwise the method performs the best-effort MkdirAll and then the rename of the file. |
| Relocation.AutoMigrateConfigDir | internal/config/config_file.go:97-104 | When the home lookup fails or `home/.config/instill` is not a directory, the result is `errNotExist` and nothing changes. Otherwise that directory is migrated to the new path. |
| Relocation.AutoMigrateStateDir | internal/config/config_file.go:108-115 | As AutoMigrateConfigDir, but only `state.yml` is moved into the new path. |
| Directories.ConfigDirPath | internal/config/config_file.go:29-40 | A non-empty `INSTILL_CONFIG_DIR` is returned verbatim, with no suffix. Otherwise a non-empty `XDG_CONFIG_HOME` gives `XDG_CONFIG_HOME/instill`. The path is never empty. |
| Directories.StateDirPath | internal/config/config_file.go:56-64 | A non-empty `XDG_STATE_HOME` gives `XDG_STATE_HOME/instill`, whatever else is set. The path is never empty. |
| Directories.DataDir | internal/config/config_file.go:78-90 | A non-empty `XDG_DATA_HOME` gives `XDG_DATA_HOME/instill`, whatever else is set. The path is never empty. DataDir computes a path only, with no migration. |
| Directories.ConfigPrecedence | internal/config/config_file.go:24-40 | The chosen configuration directory is `INSTILL_CONFIG_DIR`, else `XDG_CONFIG_HOME/instill`, else (Windows only) `AppData/Instill CLI`, else `home/.config/instill`. An empty variable counts as unset. |
| Directories.StatePrecedence | internal/config/config_file.go:55-64 | The chosen state directory is `XDG_STATE_HOME/instill`, else (Windows only) `LocalAppData/Instill CLI`, else `home/.local/instill/state`. An empty variable counts as unset. |
| Directories.DataPrecedence | internal/config/config_file.go:74-87 | The data directory is `XDG_DATA_HOME/instill`, else (Windows only) `LocalAppData/Instill CLI`, else `home/.local/share/instill`. An empty variable counts as unset. |
| Directories.ResolveIgnoresWindowsOnly | internal/config/config_file.go:35 | Off Windows, a variable consulted only by Windows-only levels has no effect on the precedence result. |
| Directories.AppDataOnlyOnWindows | internal/config/config_file.go:35-36 | Off Windows, changing `AppData` or `LocalAppData` changes none of the three directories. |
| Directories.ConfigDir | internal/config/config_file.go:29-49 | The returned path is the chosen path whatever the migration does. The filesystem changes only by the config-directory migration, and only when the path is not a directory and `INSTILL_CONFIG_DIR` is unset. |
| Directories.StateDir | internal/config/config_file.go:55-72 | The returned path is the chosen path. The filesystem changes only by the state-file migration, and only when the path is not a directory. |
| Directories.ConfigDirMigrates | internal/config/config_file.go:42-46 | When `INSTILL_CONFIG_DIR` is unset, the home lookup succeeds and `home/.config/instill` is a directory, ConfigDir moves it to the chosen path. This needs the chosen path to be free, unrelated to it, and have a creatable parent. The chosen path then is a directory. |
| Directories.StateDirMigrates | internal/config/config_file.go:66-69 | When the home lookup succeeds and `home/.config/instill/state.yml` exists, StateDir moves it into the chosen path. This needs the chosen path to be free and creatable. |
| Directories.ConfigFile | internal/config/config_file.go:156-158 | The path is `config.yml` in the configuration directory, with ConfigDir's side effect. |
| Directories.HostsConfigFile | internal/config/config_file.go:160-162 | The path is `hosts.yml` in the configuration directory, with ConfigDir's side effect. |
| Documents.ParseConfigData | internal/config/config_file.go:223-240 | A successful result has a mapping as its first node. Empty content becomes the blank document holding one empty mapping. A first node that is not a mapping fails with "expected a top level map", and library errors pass through. These are the only failures, and a valid document is returned untouched. |
| Documents.ParseConfigDataIdempotent | internal/config/config_file.go:230-239 | Normalising an already normalised document changes nothing. |
| Documents.ContainsValue | internal/config/config_file.go:243-247 | The early-return scan is true iff some node of the list has the value. |
| Documents.IsLegacy | internal/config/config_file.go:242-250 | True iff some direct child of `root.Content[0].Content` has the value `"instill.tech"`. |
| Documents.ContainsValueAppend | internal/config/config_file.go:243-247 | Scanning a concatenation finds the value iff scanning one of the parts does. |
| Documents.BlankIsNotLegacy | internal/config/config_file.go:230-235 | The blank document is not legacy. |
| LegacyConversion.PairCallsAt | internal/config/config_file.go:270-274 | The k-th `Set` call pairs the nodes at indices 2k and 2k+1. |
| LegacyConversion.HostCallsArePairs | internal/config/config_file.go:266-274 | For a host with at least one entry, with c the content of its first entry, there are `len(c)/2` calls. Call k pairs `c[2k]` and `c[2k+1]`, so a pair starts only at an even index below `len(c)-1` and a trailing odd node is dropped. |
| LegacyConversion.FinishKeepsBackup | internal/config/config_file.go:277-282 | After a completed migration, `.bak` holds the original verbatim and the file reads back as the written document. A failed backup leaves the filesystem as it was, so no write happened. A write that fails after the backup still leaves the original in `.bak`. |
| LegacyConversion.FinishIn | internal/config/config_file.go:277-282 | A failed backup rename is wrapped as "failed to back up existing config" and nothing changes. Any other failure comes from the write after a successful backup. |
| LegacyConversion.DecodeLegacy | internal/config/config_file.go:253-262 | A read error is returned as is. A regular file's bytes are decoded into the host map, and a decoding error is wrapped as "error decoding legacy format". |
| LegacyConversion.HostCalls | internal/config/config_file.go:265-274 | A host with no entries makes no calls, and every call a host makes carries that host's name. |
| LegacyConversion.PairCalls | internal/config/config_file.go:270-274 | Every call built from a host's key/value list names that host. |
| LegacyConversion.Config.Set | internal/config/config_file.go:271 | An accepted call is appended to the recorded calls. A refused call is reported and not recorded. |
| LegacyConversion.Config.Write | internal/config/config_file.go:282 | The rendering of the recorded calls is written to the configuration file. |
| LegacyConversion.SetHost | internal/config/config_file.go:266-274 | A host with no entries makes no calls. Otherwise exactly that host's pair calls are appended in list order, or the refused call is one of them. |
| LegacyConversion.SetHosts | internal/config/config_file.go:265-275 | On success every host is visited exactly once, in some order. The recorded calls are the concatenation of each host's calls in that order. |
| LegacyConversion.MigrateConfig | internal/config/config_file.go:252-283 | Read and decode errors (wrapped as "error decoding legacy format") and refused `Set` calls return before any filesystem change. Otherwise the file is backed up and then rewritten with the rendering of all calls. A backup failure is wrapped and returned before any write. |
| ConfigLoading.ParseConfigFile | internal/config/config_file.go:210-221 | A read error passes through unchanged, so a missing file not below a regular file gives the not-exist error. A regular file's bytes are unmarshalled and normalised by parseConfigData. A success always comes from a regular file and has a top-level mapping. |
| ConfigLoading.LoadPrimary | internal/config/config_file.go:286-293 | A missing primary file gives the blank root. A parsed file gives its root. Any other error is returned and is never a not-exist error. |
| ConfigLoading.MergeHostsLayout | internal/config/config_file.go:309-314 | The new root content is the key `hosts`, then the hosts mapping, then the old content in its order. Nothing else in the tree changes. |
| ConfigLoading.MergeHostsMeaning | internal/config/config_file.go:309-314 | Read first-wins, the merged `hosts` is the hosts document's mapping and every other key is unchanged. The `hosts` key count grows by exactly one: nothing is deduplicated. |
| ConfigLoading.MergeHostsLegacy | internal/config/config_file.go:309-314 | The merged document is legacy iff the root was, or the hosts mapping node carries the marker value. |
| ConfigLoading.MergeHostsExample | internal/config/config_file.go:309-314 | `{a: 1}` merged with `{myhost: {token: abc}}` starts with `hosts`, the hosts mapping, then `a` and `1`. |
| ConfigLoading.MergeHosts | internal/config/config_file.go:309-314 | The splice keeps the root a document whose first node is a mapping, and keeps the number of its nodes. |
| ConfigLoading.MergeOutcome | internal/config/config_file.go:307-318 | The hosts step fails iff parsing hosts.yml failed with an error other than not-exist, and then returns that error. A missing hosts.yml leaves the root. A merged root keeps its top-level mapping. |
| ConfigLoading.ParseConfig | internal/config/config_file.go:285-322 | A primary read error other than not-exist is returned with nothing changed, and a missing file means the blank root. A non-legacy root gets the hosts merge: a non-empty hosts mapping is spliced in, an empty one or a missing file leaves the root, and other errors propagate. A legacy root is converted by migrateConfig. A read or decode failure is wrapped as "error migrating legacy config" and changes nothing, and so is a refused `Set`. Otherwise every host is visited once. The new filesystem is then the backup followed by the write of the rendered calls. A backup or write error is wrapped, and on success the file is re-read, with a re-read error wrapped as "failed to reparse migrated config". A successful result keeps the original verbatim in `.bak`. |
| ConfigLoading.ParseDefaultConfig | internal/config/config_file.go:164-166 | Parses `config.yml` of the configuration directory. A primary read error is returned as is. |

## Left out

- The operating system: `os.Stat`, `os.Rename`, `os.MkdirAll`, `os.Open`, `os.OpenFile`,
  `os.UserHomeDir`, `os.Getenv` and `runtime.GOOS` are replaced by the entries map, the
  environment map, an optional home path and a platform string. `os.Rename` follows Go's
  Unix behaviour in outline. An existing directory at the destination is never replaced
  (EEXIST, even when both names are the same). A file replaces a file. The parent must exist,
  and nesting either way fails. Permission bits, symbolic links and other races are
  not modelled.
- Entries other than directories and regular files (devices, sockets, pipes) are not
  modelled. So `fileExists` (not a directory) and `Mode().IsRegular()` coincide here.
- `filepath.Join` and `filepath.Dir` cleaning: Join drops an empty base and does not double
  the root `"/"`. Other trailing or doubled separators and `.` / `..` elements in an
  environment variable or the home directory are kept as they are, where Go would clean them.
- The path separator is always `/`. On Windows (`goos == "windows"`, lines 36 and 60)
  `filepath.Join` uses `\` and understands volume names. The model joins with `/` there too.
- WriteConfigFile: the write after a successful open always succeeds. Close errors and
  their `errors.Join` are not modelled. A read error from `io.ReadAll` is modelled only
  for directories.
- The yaml library: parsing and serialisation are not modelled. `yaml.Unmarshal` into a
  node and into `map[string][]yaml.Node` are parameters. A node keeps only its kind, value
  and content.
- The `Config` type (`NewConfig`, `NewBlankConfig`, `NewBlankRoot`, `Set`, `Write`) is not
  part of this model. It is an abstract recorder of `Set` calls. Whether a call is accepted
  and what `Write` serialises are parameters. `Write` writes to the file being migrated,
  and `parseConfig` returns the root node instead of `NewConfig(root)`. `NewBlankRoot` is
  taken to return a document with a top-level node, because `isLegacy` (line 243) indexes
  `Content[0]` of whatever root `parseConfig` holds. ParseConfig and ParseDefaultConfig
  therefore require it.
- The order in which `migrateConfig` visits hostnames is Go map order, which is
  unspecified. It is a nondeterministic choice returned as a ghost sequence, and no
  property depends on the order across hosts.
- LegacyConversion.MigrateConfig: it does not prove that a converted file is no longer
  legacy on a second pass. Whether the marker value disappears depends on how `Config`
  serialises, which is not part of this model.
- ConfigLoading.ParseDefaultConfig: states only that a primary read error is returned as
  is. Its other outcomes are those of ConfigLoading.ParseConfig, applied after ConfigDir's
  migration.
- `errors.As` / `errors.Is` unwrapping and error message texts: errors are a tagged
  datatype. `os.IsNotExist` and `errors.Is(err, os.ErrNotExist)` both mean the `NotExist`
  variant.
