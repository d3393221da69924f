/** ReadConfigFile, WriteConfigFile and BackupConfigFile over the abstract filesystem. */
module DocumentIO {
  import opened Paths
  import opened Errors
  import opened FileSystems
  import opened PathErrors

  /** ReadConfigFile: the whole content of a regular file. Opening a missing path reports
      its os error through pathError; reading a directory fails with EISDIR. */
  function ReadConfigFile(fs: Entries, filename: Path): (r: Result<Bytes>)
    ensures r.Ok? <==> IsRegular(fs, filename)
    ensures r.Ok? ==> r.value == fs[filename].data
    ensures DirExists(fs, filename) ==> r == Err(IsDirectory(filename))
    ensures filename !in fs && !UnderRegularFile(fs, filename) ==> r == Err(NotExist(filename))
    ensures filename !in fs && UnderRegularFile(fs, filename) ==>
              r == Err(RemoveRegularFile(FirstRegularFile(fs, filename)))
  {
    if filename in fs then
      match fs[filename]
      case Regular(data) => Ok(data)
      case Directory => Err(IsDirectory(filename))
    else
      UnderRegularFileIsFound(fs, filename);
      Err(PathError(fs, OpenError(fs, filename)))
  }

  /** The filesystem and error that WriteConfigFile leaves. A failed create keeps the
      directories MkdirAll made. */
  function WriteConfigFileIn(fs: Entries, filename: Path, data: Bytes): Step
  {
    match MkdirAllIn(fs, Dir(filename))
    case Err(e) => Step(fs, Some(PathError(fs, e)))
    case Ok(prepared) =>
      match CreateIn(prepared, filename, data)
      case Ok(written) => Step(written, None)
      case Err(e) => Step(prepared, Some(e))
  }

  /** What is written is what is read back; a failure to create the directories changes
      nothing and names the regular file in the way. */
  lemma WriteThenRead(fs: Entries, filename: Path, data: Bytes)
    ensures WriteConfigFileIn(fs, filename, data).err == None ==>
      ReadConfigFile(WriteConfigFileIn(fs, filename, data).entries, filename) == Ok(data)
    ensures MkdirAllIn(fs, Dir(filename)).Err? ==>
      && WriteConfigFileIn(fs, filename, data).entries == fs
      && WriteConfigFileIn(fs, filename, data).err.Some?
      && WriteConfigFileIn(fs, filename, data).err.value.RemoveRegularFile?
  {
    if MkdirAllIn(fs, Dir(filename)).Err? {
      MkdirAllBlockedByRegularFile(fs, Dir(filename));
      var blocker := MkdirAllIn(fs, Dir(filename)).error.path;
      assert FirstRegularFile(fs, blocker) == blocker;
    }
  }

  /** WriteConfigFile fails only with an os error, explained by pathError where it can be,
      and keeps every entry that was there before. */
  lemma WriteErrorKinds(fs: Entries, filename: Path, data: Bytes)
    requires WriteConfigFileIn(fs, filename, data).err.Some?
    ensures var e := WriteConfigFileIn(fs, filename, data).err.value;
      e.RemoveRegularFile? || e.NotDir? || e.NotExist? || e.IsDirectory?
    ensures forall q :: q in fs ==> q in WriteConfigFileIn(fs, filename, data).entries &&
                                    WriteConfigFileIn(fs, filename, data).entries[q] == fs[q]
  {
    if MkdirAllIn(fs, Dir(filename)).Err? {
      MkdirAllBlockedByRegularFile(fs, Dir(filename));
    } else {
      MkdirAllOnlyAddsDirectories(fs, Dir(filename));
    }
  }

  /** WriteConfigFile: creates the parent directories, then creates or truncates the file
      and writes data. A failure to create the directories is explained by pathError. */
  method WriteConfigFile(fs: FileSystem, filename: Path, data: Bytes) returns (err: Option<Error>)
    modifies fs
    ensures Step(fs.entries, err) == WriteConfigFileIn(old(fs.entries), filename, data)
  {
    var before := fs.entries;
    err := fs.MkdirAll(Dir(filename));
    if err.Some? {
      return Some(PathError(before, err.value));
    }
    err := fs.Create(filename, data);
  }

  /** The name of the backup copy of filename. */
  function BackupName(filename: Path): Path
  {
    filename + ".bak"
  }

  /** BackupConfigFile: renames filename to filename + ".bak". */
  method BackupConfigFile(fs: FileSystem, filename: Path) returns (err: Option<Error>)
    modifies fs
    ensures match RenameIn(old(fs.entries), filename, BackupName(filename))
            case Ok(r) => err == None && fs.entries == r
            case Err(e) => err == Some(e) && fs.entries == old(fs.entries)
  {
    err := fs.Rename(filename, BackupName(filename));
  }

  /** A successful backup keeps the file's content verbatim under the backup name and
      removes the original. */
  lemma BackupKeepsContent(fs: Entries, filename: Path)
    requires RenameIn(fs, filename, BackupName(filename)).Ok?
    ensures var r := RenameIn(fs, filename, BackupName(filename)).value;
      filename !in r && BackupName(filename) in r && r[BackupName(filename)] == fs[filename]
  {
    assert filename != BackupName(filename) by {
      assert |BackupName(filename)| == |filename| + 4;
    }
    RenameIsMove(fs, filename, BackupName(filename));
    assert IsWithin(filename, filename);
  }

  /** Reading /x/y/z when /x/y is a regular file names /x/y as the blocking file, neither
      /x/y/z nor /x. */
  lemma BlockedReadNamesFile()
    ensures ReadConfigFile(map["/x" := Directory, "/x/y" := Regular([])], "/x/y/z") ==
            Err(RemoveRegularFile("/x/y"))
  {
    var fs: Entries := map["/x" := Directory, "/x/y" := Regular([])];
    assert LastSeparator("/x/y/z") == 4 by {
      assert "/x/y/z"[4] == '/' && "/x/y/z"[5] == 'z';
    }
    assert Dir("/x/y/z") == "/x/y" by {
      assert "/x/y/z"[..4] == "/x/y";
    }
    assert UnderRegularFile(fs, "/x/y/z");
    assert FirstRegularFile(fs, "/x/y/z") == "/x/y";
  }
}
