/** migrateDir, migrateFile and the two autoMigrate entry points: moving configuration
    out of the historical ~/.config/instill directory. */
module Relocation {
  import opened Paths
  import opened Errors
  import opened FileSystems

  const StateFileName := "state.yml"

  /** The historical configuration directory, home/.config/instill, whatever the platform. */
  function LegacyConfigDir(home: Path): Path
  {
    JoinAll(home, [".config", "instill"])
  }

  /** The rename after a best-effort MkdirAll of the destination's parent. */
  function MoveIn(fs: Entries, from: Path, to: Path): (s: Step)
    ensures s.err.Some? ==> s.err.value == NotExist(from) || s.err.value == RenameFailed(from, to)
    ensures s.err.Some? ==> forall q :: q in fs ==> q in s.entries && s.entries[q] == fs[q]
  {
    var prepared := MkdirAllBestEffort(fs, Dir(to));
    match RenameIn(prepared, from, to)
    case Ok(r) => Step(r, None)
    case Err(e) => Step(prepared, Some(e))
  }

  /** migrateDir(oldPath, newPath) */
  function MigrateDirIn(fs: Entries, oldPath: Path, newPath: Path): Step
  {
    if oldPath == newPath then Step(fs, Some(SamePath))
    else if !DirExists(fs, oldPath) then Step(fs, Some(MigrateNotExist))
    else MoveIn(fs, oldPath, newPath)
  }

  /** migrateFile(oldPath, newPath, file) */
  function MigrateFileIn(fs: Entries, oldPath: Path, newPath: Path, file: string): Step
  {
    if oldPath == newPath then Step(fs, Some(SamePath))
    else
      var oldFile, newFile := Join(oldPath, file), Join(newPath, file);
      if !FileExists(fs, oldFile) then Step(fs, Some(MigrateNotExist))
      else MoveIn(fs, oldFile, newFile)
  }

  /** autoMigrateConfigDir(newPath); home is os.UserHomeDir, None when it fails. */
  function AutoMigrateConfigDirIn(fs: Entries, home: Option<Path>, newPath: Path): Step
  {
    if home.Some? && DirExists(fs, LegacyConfigDir(home.value)) then
      MigrateDirIn(fs, LegacyConfigDir(home.value), newPath)
    else Step(fs, Some(MigrateNotExist))
  }

  /** autoMigrateStateDir(newPath) */
  function AutoMigrateStateDirIn(fs: Entries, home: Option<Path>, newPath: Path): Step
  {
    if home.Some? && DirExists(fs, LegacyConfigDir(home.value)) then
      MigrateFileIn(fs, LegacyConfigDir(home.value), newPath, StateFileName)
    else Step(fs, Some(MigrateNotExist))
  }

  /** What a successful move from `from` to `to` leaves, stated against the filesystem
      before the best-effort MkdirAll: the source's subtree is gone, it reappears under the
      destination, other entries are kept, and nothing but directories is added elsewhere. */
  ghost predicate IsMove(before: Entries, after: Entries, from: Path, to: Path)
  {
    && from in before
    && (forall q :: IsWithin(q, from) ==> q !in after)
    && to in after && after[to] == before[from]
    && (forall q :: q in before && IsWithin(q, from) ==>
          Rebase(q, from, to) in after && after[Rebase(q, from, to)] == before[q])
    && (forall q :: q in before && !IsWithin(q, from) && !IsWithin(q, to) ==>
          q in after && after[q] == before[q])
    && (forall q :: q in after ==>
          IsWithin(q, to) || (q in before && !IsWithin(q, from)) || (q !in before && after[q] == Directory))
  }

  lemma MoveIsMove(fs: Entries, from: Path, to: Path)
    requires from != to && from in fs && MoveIn(fs, from, to).err == None
    ensures IsMove(fs, MoveIn(fs, from, to).entries, from, to)
  {
    var prepared := MkdirAllBestEffort(fs, Dir(to));
    if MkdirAllIn(fs, Dir(to)).Ok? {
      MkdirAllOnlyAddsDirectories(fs, Dir(to));
    }
    assert forall q :: q in fs ==> q in prepared && prepared[q] == fs[q];
    assert forall q :: q in prepared && q !in fs ==> prepared[q] == Directory;
    RenameIsMove(prepared, from, to);
    var after := MoveIn(fs, from, to).entries;
    forall q | q in after
      ensures IsWithin(q, to) || (q in fs && !IsWithin(q, from)) || (q !in fs && after[q] == Directory)
    {
      if !IsWithin(q, to) {
        assert q in prepared && !IsWithin(q, from);
      }
    }
  }

  /** A migrateDir that reports no error moved the old directory to the new path. */
  lemma MigrateDirIsMove(fs: Entries, oldPath: Path, newPath: Path)
    requires MigrateDirIn(fs, oldPath, newPath).err == None
    ensures DirExists(fs, oldPath) && oldPath != newPath
    ensures IsMove(fs, MigrateDirIn(fs, oldPath, newPath).entries, oldPath, newPath)
    ensures DirExists(MigrateDirIn(fs, oldPath, newPath).entries, newPath)
  {
    MoveIsMove(fs, oldPath, newPath);
  }

  /** A migrateFile that reports no error moved the old file into the new directory. */
  lemma MigrateFileIsMove(fs: Entries, oldPath: Path, newPath: Path, file: string)
    requires MigrateFileIn(fs, oldPath, newPath, file).err == None
    ensures oldPath != newPath && FileExists(fs, Join(oldPath, file))
    ensures IsMove(fs, MigrateFileIn(fs, oldPath, newPath, file).entries, Join(oldPath, file), Join(newPath, file))
    ensures FileExists(MigrateFileIn(fs, oldPath, newPath, file).entries, Join(newPath, file))
  {
    var oldFile, newFile := Join(oldPath, file), Join(newPath, file);
    assert RenameIn(MkdirAllBestEffort(fs, Dir(newFile)), oldFile, newFile).Ok?;
    if oldFile == newFile {
      JoinInjective(oldPath, newPath, file);
    }
    MoveIsMove(fs, oldFile, newFile);
  }

  /** The rename after MkdirAll succeeds when the source exists, the destination is free,
      neither path lies inside the other and MkdirAll can create the destination's parent. */
  lemma MoveSucceeds(fs: Entries, from: Path, to: Path)
    requires from in fs && to !in fs && !IsWithin(to, from) && !IsWithin(from, to)
    requires MkdirAllIn(fs, Dir(to)).Ok?
    ensures MoveIn(fs, from, to).err == None
  {
    MkdirAllOnlyAddsDirectories(fs, Dir(to));
  }

  /** migrateDir moves a historical directory that exists to a free, unrelated new path
      whose parent MkdirAll can create. */
  lemma MigrateDirSucceeds(fs: Entries, oldPath: Path, newPath: Path)
    requires DirExists(fs, oldPath) && newPath !in fs
    requires !IsWithin(newPath, oldPath) && !IsWithin(oldPath, newPath)
    requires MkdirAllIn(fs, Dir(newPath)).Ok?
    ensures MigrateDirIn(fs, oldPath, newPath).err == None
  {
    MoveSucceeds(fs, oldPath, newPath);
  }

  /** migrateFile moves an existing file into a new directory that MkdirAll can create,
      when the destination name is free and the two names are unrelated. */
  lemma MigrateFileSucceeds(fs: Entries, oldPath: Path, newPath: Path, file: string)
    requires oldPath != newPath && newPath != "" && '/' !in file
    requires FileExists(fs, Join(oldPath, file)) && Join(newPath, file) !in fs
    requires !IsWithin(Join(newPath, file), Join(oldPath, file)) && !IsWithin(Join(oldPath, file), Join(newPath, file))
    requires MkdirAllIn(fs, newPath).Ok?
    ensures MigrateFileIn(fs, oldPath, newPath, file).err == None
  {
    DirOfJoin(newPath, file);
    MoveSucceeds(fs, Join(oldPath, file), Join(newPath, file));
  }

  /** migrateDir does not move a directory onto an existing directory: os.Rename reports
      EEXIST for /a to /b when both are directories. */
  lemma MigrateDirOntoDirectoryFails()
    ensures MigrateDirIn(map["/a" := Directory, "/b" := Directory], "/a", "/b").err ==
            Some(RenameFailed("/a", "/b"))
  {
  }

  /** migrateDir, against the process's filesystem. */
  method MigrateDir(fs: FileSystem, oldPath: Path, newPath: Path) returns (err: Option<Error>)
    modifies fs
    ensures Step(fs.entries, err) == MigrateDirIn(old(fs.entries), oldPath, newPath)
    ensures oldPath == newPath ==> err == Some(SamePath) && fs.entries == old(fs.entries)
    ensures oldPath != newPath && !DirExists(old(fs.entries), oldPath) ==>
              err == Some(MigrateNotExist) && fs.entries == old(fs.entries)
  {
    if oldPath == newPath {
      return Some(SamePath);
    }
    if !DirExists(fs.entries, oldPath) {
      return Some(MigrateNotExist);
    }
    var _ := fs.MkdirAll(Dir(newPath));
    err := fs.Rename(oldPath, newPath);
  }

  /** migrateFile, against the process's filesystem. */
  method MigrateFile(fs: FileSystem, oldPath: Path, newPath: Path, file: string) returns (err: Option<Error>)
    modifies fs
    ensures Step(fs.entries, err) == MigrateFileIn(old(fs.entries), oldPath, newPath, file)
    ensures oldPath == newPath ==> err == Some(SamePath) && fs.entries == old(fs.entries)
    ensures oldPath != newPath && !FileExists(old(fs.entries), Join(oldPath, file)) ==>
              err == Some(MigrateNotExist) && fs.entries == old(fs.entries)
  {
    if oldPath == newPath {
      return Some(SamePath);
    }
    var oldFile := Join(oldPath, file);
    var newFile := Join(newPath, file);
    if !FileExists(fs.entries, oldFile) {
      return Some(MigrateNotExist);
    }
    var _ := fs.MkdirAll(Dir(newFile));
    err := fs.Rename(oldFile, newFile);
  }

  /** autoMigrateConfigDir, against the process's filesystem. */
  method AutoMigrateConfigDir(fs: FileSystem, home: Option<Path>, newPath: Path) returns (err: Option<Error>)
    modifies fs
    ensures Step(fs.entries, err) == AutoMigrateConfigDirIn(old(fs.entries), home, newPath)
    ensures (home.None? || !DirExists(old(fs.entries), LegacyConfigDir(home.value))) ==>
              err == Some(MigrateNotExist) && fs.entries == old(fs.entries)
  {
    if home.Some? && DirExists(fs.entries, LegacyConfigDir(home.value)) {
      err := MigrateDir(fs, LegacyConfigDir(home.value), newPath);
    } else {
      err := Some(MigrateNotExist);
    }
  }

  /** autoMigrateStateDir, against the process's filesystem. */
  method AutoMigrateStateDir(fs: FileSystem, home: Option<Path>, newPath: Path) returns (err: Option<Error>)
    modifies fs
    ensures Step(fs.entries, err) == AutoMigrateStateDirIn(old(fs.entries), home, newPath)
    ensures (home.None? || !DirExists(old(fs.entries), LegacyConfigDir(home.value))) ==>
              err == Some(MigrateNotExist) && fs.entries == old(fs.entries)
  {
    if home.Some? && DirExists(fs.entries, LegacyConfigDir(home.value)) {
      err := MigrateFile(fs, LegacyConfigDir(home.value), newPath, StateFileName);
    } else {
      err := Some(MigrateNotExist);
    }
  }
}
