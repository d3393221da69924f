/** pathError and findRegularFile: explaining an ENOTDIR by the regular file that sits
    where a directory was expected. */
module PathErrors {
  import opened Paths
  import opened Errors
  import opened FileSystems

  /** The paths findRegularFile examines, in order: p, then its parents for as long as
      the parent is neither p itself, "/" nor ".". */
  function Ancestors(p: Path): (a: seq<Path>)
    ensures |a| > 0 && a[0] == p
    decreases |p|
  {
    [p] + (if HasParent(p) then Ancestors(Dir(p)) else [])
  }

  /** The first of Ancestors(p) that is a regular file, or "" when there is none. */
  function FirstRegularFile(fs: Entries, p: Path): Path
    decreases |p|
  {
    if IsRegular(fs, p) then p
    else if HasParent(p) then FirstRegularFile(fs, Dir(p))
    else ""
  }

  /** One step up: the ancestors of p are p followed by the ancestors of its parent. */
  lemma AncestorsStep(p: Path)
    requires HasParent(p)
    ensures Ancestors(p) == [p] + Ancestors(Dir(p))
  {
  }

  /** A non-empty search result is the earliest regular file among the ancestors; k is
      its position. */
  lemma {:induction false} FirstRegularFileFound(fs: Entries, p: Path) returns (k: nat)
    requires FirstRegularFile(fs, p) != ""
    ensures k < |Ancestors(p)| && Ancestors(p)[k] == FirstRegularFile(fs, p)
    ensures IsRegular(fs, FirstRegularFile(fs, p))
    ensures forall j :: 0 <= j < k ==> !IsRegular(fs, Ancestors(p)[j])
    decreases |p|
  {
    if IsRegular(fs, p) {
      k := 0;
    } else {
      assert HasParent(p);
      AncestorsStep(p);
      var k' := FirstRegularFileFound(fs, Dir(p));
      k := k' + 1;
      forall j | 0 <= j < k ensures !IsRegular(fs, Ancestors(p)[j]) {
        if j > 0 {
          assert Ancestors(p)[j] == Ancestors(Dir(p))[j - 1];
        }
      }
    }
  }

  lemma FirstRegularFileIsAncestor(fs: Entries, p: Path)
    requires FirstRegularFile(fs, p) != ""
    ensures FirstRegularFile(fs, p) in Ancestors(p) && IsRegular(fs, FirstRegularFile(fs, p))
  {
    var k := FirstRegularFileFound(fs, p);
  }

  /** An empty search result means no ancestor of p is a regular file (p itself is a
      path, so it is not empty). */
  lemma {:induction false} FirstRegularFileNone(fs: Entries, p: Path)
    requires p != "" && FirstRegularFile(fs, p) == ""
    ensures forall j :: 0 <= j < |Ancestors(p)| ==> !IsRegular(fs, Ancestors(p)[j])
    decreases |p|
  {
    if HasParent(p) {
      AncestorsStep(p);
      FirstRegularFileNone(fs, Dir(p));
      forall j | 0 <= j < |Ancestors(p)| ensures !IsRegular(fs, Ancestors(p)[j]) {
        if j > 0 {
          assert Ancestors(p)[j] == Ancestors(Dir(p))[j - 1];
        }
      }
    } else {
      assert Ancestors(p) == [p];
    }
  }

  /** A missing path whose nearest existing ancestor is a regular file has a regular file
      among its ancestors. */
  lemma {:induction false} UnderRegularFileIsFound(fs: Entries, p: Path)
    ensures UnderRegularFile(fs, p) ==> FirstRegularFile(fs, p) != ""
    decreases |p|
  {
    if UnderRegularFile(fs, p) && !IsRegular(fs, p) && !(Dir(p) in fs) {
      UnderRegularFileIsFound(fs, Dir(p));
    }
  }

  /** findRegularFile: the loop that walks up from p. */
  method FindRegularFile(fs: FileSystem, p: Path) returns (r: Path)
    ensures r == FirstRegularFile(fs.entries, p)
  {
    var cur := p;
    while true
      invariant FirstRegularFile(fs.entries, cur) == FirstRegularFile(fs.entries, p)
      decreases |cur|
    {
      if IsRegular(fs.entries, cur) {
        return cur;
      }
      var newPath := Dir(cur);
      if newPath == cur || newPath == "/" || newPath == "." {
        break;
      }
      cur := newPath;
    }
    return "";
  }

  /** pathError: an ENOTDIR error becomes a request to remove the regular file that blocks
      the path, when one is found; every other error passes through unchanged. */
  function PathError(fs: Entries, err: Error): (r: Error)
    ensures !err.NotDir? ==> r == err
    ensures err.NotDir? && FirstRegularFile(fs, err.path) != "" ==>
              r == RemoveRegularFile(FirstRegularFile(fs, err.path))
    ensures r != err ==> err.NotDir? && r.RemoveRegularFile? &&
                         IsRegular(fs, r.path) && r.path in Ancestors(err.path)
    ensures err.NotDir? && r == err ==> FirstRegularFile(fs, err.path) == ""
  {
    match err
    case NotDir(path) =>
      var found := FirstRegularFile(fs, path);
      if found != "" then
        FirstRegularFileIsAncestor(fs, path);
        RemoveRegularFile(found)
      else err
    case _ => err
  }
}
