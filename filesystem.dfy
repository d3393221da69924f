/** An abstract filesystem: the os calls the configuration code makes, over a map from
    paths to entries. */
module FileSystems {
  import opened Paths
  import opened Errors

  newtype byte = x: int | 0 <= x < 256

  type Bytes = seq<byte>

  datatype Entry = Directory | Regular(data: Bytes)

  type Entries = map<Path, Entry>

  /** The filesystem after an operation, and the error the operation returned. */
  datatype Step = Step(entries: Entries, err: Option<Error>)

  /** dirExists: os.Stat succeeds and reports a directory, so fileExists does not hold. */
  predicate DirExists(fs: Entries, p: Path): (b: bool)
    ensures b <==> p in fs && !FileExists(fs, p)
  {
    p in fs && fs[p].Directory?
  }

  /** fileExists: os.Stat succeeds and reports something that is not a directory. With
      directories and regular files the only entries, that is a regular file. */
  predicate FileExists(fs: Entries, p: Path): (b: bool)
    ensures b <==> IsRegular(fs, p)
  {
    p in fs && !fs[p].Directory?
  }

  /** os.Stat succeeds and reports a regular file. */
  predicate IsRegular(fs: Entries, p: Path)
  {
    p in fs && fs[p].Regular?
  }

  /** "/" and "." always exist as directories. */
  predicate IsRoot(p: Path)
  {
    p == "/" || p == "."
  }

  /** Walking up from p by Dir makes progress: the parent is neither p nor a root. */
  predicate HasParent(p: Path)
  {
    var d := Dir(p);
    d != p && !IsRoot(d)
  }

  /** Opening a missing path fails with ENOTDIR when the nearest existing ancestor is a
      regular file, and with ENOENT otherwise. */
  predicate UnderRegularFile(fs: Entries, p: Path)
    decreases |p|
  {
    HasParent(p) &&
    (var d := Dir(p);
     if d in fs then fs[d].Regular? else UnderRegularFile(fs, d))
  }

  /** The error os.Open reports for a path that is not in fs. */
  function OpenError(fs: Entries, p: Path): (e: Error)
    ensures e.NotDir? <==> UnderRegularFile(fs, p)
    ensures e == NotDir(p) || e == NotExist(p)
  {
    if UnderRegularFile(fs, p) then NotDir(p) else NotExist(p)
  }

  /** The entries of fs after the entry at `from` and everything below it are moved to `to`,
      replacing whatever was at `to`. */
  function Moved(fs: Entries, from: Path, to: Path): Entries
  {
    var kept := map q | q in fs && !IsWithin(q, from) && !IsWithin(q, to) :: fs[q];
    RebaseInjective(from, to);
    var moved := map q | q in fs && IsWithin(q, from) :: Rebase(q, from, to) := fs[q];
    kept + moved
  }

  /** Whether the entry at `from` may replace the existing, non-directory entry at `to`:
      a file replaces a file, and a directory replaces nothing. */
  predicate Replaceable(fs: Entries, from: Path, to: Path)
    requires from in fs && to in fs
  {
    fs[from].Regular? && fs[to].Regular?
  }

  /** os.Rename(from, to). An existing directory at `to` is never replaced, not even by
      itself: Go reports EEXIST before calling rename(2). */
  function RenameIn(fs: Entries, from: Path, to: Path): (r: Result<Entries>)
    ensures from !in fs ==> r == Err(NotExist(from))
    ensures from in fs && to in fs && fs[to].Directory? ==> r == Err(RenameFailed(from, to))
    ensures from in fs && from == to && fs[from].Regular? ==> r == Ok(fs)
    ensures r.Err? ==> r.error == NotExist(from) || r.error == RenameFailed(from, to)
    ensures r.Ok? && from != to ==>
              from in fs && !IsWithin(to, from) && !IsWithin(from, to) && (IsRoot(Dir(to)) || DirExists(fs, Dir(to)))
  {
    if from !in fs then Err(NotExist(from))
    else if to in fs && fs[to].Directory? then Err(RenameFailed(from, to))
    else if from == to then Ok(fs)
    else if IsWithin(to, from) || IsWithin(from, to) then Err(RenameFailed(from, to))
    else if !(IsRoot(Dir(to)) || DirExists(fs, Dir(to))) then Err(RenameFailed(from, to))
    else if to in fs && !Replaceable(fs, from, to) then Err(RenameFailed(from, to))
    else Ok(Moved(fs, from, to))
  }

  /** A successful rename is a move: the source and everything below it are gone, the
      destination holds the source's entry and each entry below the source reappears
      below the destination, and entries outside both are untouched. */
  lemma RenameIsMove(fs: Entries, from: Path, to: Path)
    requires from != to && RenameIn(fs, from, to).Ok?
    ensures var r := RenameIn(fs, from, to).value;
      && from in fs
      && (forall q :: IsWithin(q, from) ==> q !in r)
      && to in r && r[to] == fs[from]
      && (forall q :: q in fs && IsWithin(q, from) ==> Rebase(q, from, to) in r && r[Rebase(q, from, to)] == fs[q])
      && (forall q :: q in fs && !IsWithin(q, from) && !IsWithin(q, to) ==> q in r && r[q] == fs[q])
      && (forall q :: q in r ==> IsWithin(q, to) || (q in fs && !IsWithin(q, from)))
  {
    var r := Moved(fs, from, to);
    assert RenameIn(fs, from, to).value == r;
    forall q | IsWithin(q, from) ensures q !in r {
      if q in r && IsWithin(q, to) {
        WithinBoth(q, from, to);
      }
    }
    assert IsWithin(from, from);
    assert Rebase(from, from, to) == to;
    forall q | q in fs && IsWithin(q, from)
      ensures Rebase(q, from, to) in r && r[Rebase(q, from, to)] == fs[q]
    {
      var t := Rebase(q, from, to);
      if IsWithin(t, from) {
        WithinBoth(t, from, to);
      }
      RebaseInjective(from, to);
    }
  }

  /** os.MkdirAll(p): creates p and its missing ancestors as directories, or fails without
      change when p or an ancestor that must be walked through is a regular file. */
  function MkdirAllIn(fs: Entries, p: Path): (r: Result<Entries>)
    ensures IsRoot(p) || DirExists(fs, p) ==> r == Ok(fs)
    ensures r.Err? ==> r.error.NotDir? && IsRegular(fs, r.error.path)
    decreases |p|
  {
    if IsRoot(p) then Ok(fs)
    else if p in fs then (if fs[p].Directory? then Ok(fs) else Err(NotDir(p)))
    else if HasParent(p) then
      match MkdirAllIn(fs, Dir(p))
      case Err(e) => Err(e)
      case Ok(fs') => Ok(fs'[p := Directory])
    else Ok(fs[p := Directory])
  }

  /** MkdirAll only adds directories, none of them longer than p (p and its ancestors),
      and on success p is one (or a root). */
  lemma {:induction false} MkdirAllOnlyAddsDirectories(fs: Entries, p: Path)
    requires MkdirAllIn(fs, p).Ok?
    ensures var r := MkdirAllIn(fs, p).value;
      && (forall q :: q in fs ==> q in r && r[q] == fs[q])
      && (forall q :: q in r && q !in fs ==> r[q] == Directory && |q| <= |p|)
      && (IsRoot(p) || DirExists(r, p))
    decreases |p|
  {
    if !IsRoot(p) && p !in fs && HasParent(p) {
      MkdirAllOnlyAddsDirectories(fs, Dir(p));
    }
  }

  /** A failing MkdirAll of a non-empty path names a non-empty blocking path, p itself or
      one no longer than it. */
  lemma {:induction false} MkdirAllBlockedByRegularFile(fs: Entries, p: Path)
    requires MkdirAllIn(fs, p).Err? && p != ""
    ensures MkdirAllIn(fs, p).error.path != ""
    ensures |MkdirAllIn(fs, p).error.path| <= |p|
    decreases |p|
  {
    if !IsRoot(p) && p !in fs && HasParent(p) {
      MkdirAllBlockedByRegularFile(fs, Dir(p));
    }
  }

  /** The best-effort `_ = os.MkdirAll(...)`: its error is discarded. */
  function MkdirAllBestEffort(fs: Entries, p: Path): (r: Entries)
    ensures forall q :: q in fs ==> q in r && r[q] == fs[q]
    ensures forall q :: q in r && q !in fs ==> r[q] == Directory
    ensures MkdirAllIn(fs, p).Ok? ==> IsRoot(p) || DirExists(r, p)
  {
    if MkdirAllIn(fs, p).Ok? then
      MkdirAllOnlyAddsDirectories(fs, p);
      MkdirAllIn(fs, p).value
    else fs
  }

  /** os.OpenFile(p, O_RDWR|O_CREATE|O_TRUNC) followed by a write of data. */
  function CreateIn(fs: Entries, p: Path, data: Bytes): (r: Result<Entries>)
    ensures DirExists(fs, p) ==> r == Err(IsDirectory(p))
    ensures r.Ok? <==> !DirExists(fs, p) && (IsRoot(Dir(p)) || DirExists(fs, Dir(p)))
    ensures r.Ok? ==> p in r.value && r.value[p] == Regular(data) &&
                      forall q :: q in fs && q != p ==> q in r.value && r.value[q] == fs[q]
  {
    if DirExists(fs, p) then Err(IsDirectory(p))
    else if !IsRoot(Dir(p)) && !DirExists(fs, Dir(p)) then Err(OpenError(fs, p))
    else Ok(fs[p := Regular(data)])
  }

  /** The process's filesystem, which the os calls change in place. */
  class FileSystem {
    var entries: Entries

    constructor (initial: Entries)
      ensures entries == initial
    {
      entries := initial;
    }

    method Rename(from: Path, to: Path) returns (err: Option<Error>)
      modifies this
      ensures match RenameIn(old(entries), from, to)
              case Ok(r) => err == None && entries == r
              case Err(e) => err == Some(e) && entries == old(entries)
    {
      match RenameIn(entries, from, to)
      case Ok(r) =>
        entries := r;
        err := None;
      case Err(e) =>
        err := Some(e);
    }

    method MkdirAll(p: Path) returns (err: Option<Error>)
      modifies this
      ensures match MkdirAllIn(old(entries), p)
              case Ok(r) => err == None && entries == r
              case Err(e) => err == Some(e) && entries == old(entries)
    {
      match MkdirAllIn(entries, p)
      case Ok(r) =>
        entries := r;
        err := None;
      case Err(e) =>
        err := Some(e);
    }

    method Create(p: Path, data: Bytes) returns (err: Option<Error>)
      modifies this
      ensures match CreateIn(old(entries), p, data)
              case Ok(r) => err == None && entries == r
              case Err(e) => err == Some(e) && entries == old(entries)
    {
      match CreateIn(entries, p, data)
      case Ok(r) =>
        entries := r;
        err := None;
      case Err(e) =>
        err := Some(e);
    }
  }
}
