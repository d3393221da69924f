/** parseConfig: loading the primary document, upgrading a legacy one, and folding in a
    separate hosts.yml under the "hosts" key. */
module ConfigLoading {
  import opened Paths
  import opened Errors
  import opened FileSystems
  import opened Documents
  import opened DocumentIO
  import opened Directories
  import opened External
  import opened LegacyConversion

  /** parseConfigFile: read the file, unmarshal it and normalise the tree. Read errors
      pass through unchanged, so a missing file stays a not-exist error. */
  function ParseConfigFile(fs: Entries, filename: Path, ext: Collaborators): (r: Result<Node>)
    ensures r.Ok? ==> HasTopLevelMap(r.value)
    ensures r.Ok? ==> IsRegular(fs, filename)
    ensures !IsRegular(fs, filename) ==> r == Err(ReadConfigFile(fs, filename).error)
    ensures filename !in fs && !UnderRegularFile(fs, filename) ==> r == Err(NotExist(filename))
    ensures IsRegular(fs, filename) ==> r == ParseConfigData(ext.unmarshal(fs[filename].data))
  {
    match ReadConfigFile(fs, filename)
    case Err(e) => Err(e)
    case Ok(data) => ParseConfigData(ext.unmarshal(data))
  }

  /** The root parseConfig works on: the parsed file, or the blank root when the file does
      not exist. */
  function LoadPrimary(fs: Entries, filename: Path, ext: Collaborators): (r: Result<Node>)
    ensures r.Err? ==> r == ParseConfigFile(fs, filename, ext) && !r.error.NotExist?
    ensures filename !in fs && !UnderRegularFile(fs, filename) ==> r == Ok(ext.blankRoot)
    ensures IsRegular(fs, filename) && ParseConfigFile(fs, filename, ext).Ok? ==>
              r == ParseConfigFile(fs, filename, ext)
  {
    match ParseConfigFile(fs, filename, ext)
    case Ok(root) => Ok(root)
    case Err(e) => if e.NotExist? then Ok(ext.blankRoot) else Err(e)
  }

  /** The key node placed in front of the merged hosts mapping; it carries no Kind. */
  function HostsKey(): Node
  {
    Node(NoKind, "hosts", [])
  }

  /** The splice of parseConfig: the key "hosts" and the hosts document's mapping are put in
      front of the root mapping's content. */
  function MergeHosts(root: Node, hostsRoot: Node): (r: Node)
    requires |root.content| > 0 && |hostsRoot.content| > 0
    ensures HasTopLevelMap(root) ==> HasTopLevelMap(r)
    ensures |r.content| == |root.content|
  {
    var top := root.content[0];
    root.(content := [top.(content := [HostsKey(), hostsRoot.content[0]] + top.content)] + root.content[1..])
  }

  /** The layout of the merge: the two new nodes come first, the old content follows in
      its order, and nothing else in the tree changes. */
  lemma MergeHostsLayout(root: Node, hostsRoot: Node)
    requires |root.content| > 0 && |hostsRoot.content| > 0
    ensures var r, old_ := MergeHosts(root, hostsRoot), root.content[0].content;
      && r.kind == root.kind && r.value == root.value
      && |r.content| == |root.content| && r.content[1..] == root.content[1..]
      && r.content[0].kind == root.content[0].kind && r.content[0].value == root.content[0].value
      && |r.content[0].content| == |old_| + 2
      && r.content[0].content[0].value == "hosts"
      && r.content[0].content[1] == hostsRoot.content[0]
      && (forall i :: 0 <= i < |old_| ==> r.content[0].content[i + 2] == old_[i])
  {
  }

  /** The value of the first occurrence of key in a mapping's alternating content, the
      reading a first-wins consumer gives. */
  function Lookup(content: seq<Node>, key: string): Option<Node>
    decreases |content|
  {
    if |content| < 2 then None
    else if content[0].value == key then Some(content[1])
    else Lookup(content[2..], key)
  }

  /** How many keys of a mapping's alternating content equal key. */
  function CountKey(content: seq<Node>, key: string): nat
    decreases |content|
  {
    if |content| < 2 then 0
    else (if content[0].value == key then 1 else 0) + CountKey(content[2..], key)
  }

  /** Read first-wins, the merged document's "hosts" is the hosts document's mapping and
      every other key reads as before; no existing "hosts" key is removed, so a document
      that had one now has it twice. */
  lemma MergeHostsMeaning(root: Node, hostsRoot: Node, key: string)
    requires |root.content| > 0 && |hostsRoot.content| > 0
    ensures var merged, before := MergeHosts(root, hostsRoot).content[0].content, root.content[0].content;
      && Lookup(merged, "hosts") == Some(hostsRoot.content[0])
      && (key != "hosts" ==> Lookup(merged, key) == Lookup(before, key))
      && CountKey(merged, "hosts") == CountKey(before, "hosts") + 1
  {
    var merged, before := MergeHosts(root, hostsRoot).content[0].content, root.content[0].content;
    assert merged[2..] == before;
  }

  /** Merging never makes a document legacy unless the hosts mapping itself carries the
      marker value. */
  lemma MergeHostsLegacy(root: Node, hostsRoot: Node)
    requires |root.content| > 0 && |hostsRoot.content| > 0
    ensures IsLegacy(MergeHosts(root, hostsRoot)) <==>
      IsLegacy(root) || hostsRoot.content[0].value == LegacyMarker
  {
    ContainsValueAppend([HostsKey(), hostsRoot.content[0]], root.content[0].content, LegacyMarker);
    assert [HostsKey(), hostsRoot.content[0]][1] == hostsRoot.content[0];
  }

  /** The primary document {a: 1} merged with the hosts document {myhost: {token: abc}}
      starts with hosts: {myhost: {token: abc}} and then a: 1. */
  lemma MergeHostsExample()
    ensures var a, one := Node(ScalarNode, "a", []), Node(ScalarNode, "1", []);
      var entry := Node(MappingNode, "", [Node(ScalarNode, "myhost", []),
                                          Node(MappingNode, "", [Node(ScalarNode, "token", []), Node(ScalarNode, "abc", [])])]);
      var root := Node(DocumentNode, "", [Node(MappingNode, "", [a, one])]);
      var hostsRoot := Node(DocumentNode, "", [entry]);
      MergeHosts(root, hostsRoot).content[0].content == [HostsKey(), entry, a, one]
  {
  }

  /** What the hosts document does to a non-legacy root: a non-empty mapping is merged, an
      empty one or a missing file leaves the root as it is, any other error is returned. */
  function MergeOutcome(root: Node, hostsParsed: Result<Node>): (r: Result<Node>)
    requires |root.content| > 0
    ensures r.Err? <==> hostsParsed.Err? && !hostsParsed.error.NotExist?
    ensures r.Err? ==> r.error == hostsParsed.error
    ensures hostsParsed.Err? && hostsParsed.error.NotExist? ==> r == Ok(root)
    ensures r.Ok? && HasTopLevelMap(root) ==> HasTopLevelMap(r.value)
  {
    match hostsParsed
    case Ok(hostsRoot) =>
      if |hostsRoot.content| > 0 && |hostsRoot.content[0].content| > 0 then Ok(MergeHosts(root, hostsRoot))
      else Ok(root)
    case Err(e) => if e.NotExist? then Ok(root) else Err(e)
  }

  /** parseConfig(filename). The returned root stands for NewConfig(root). */
  method ParseConfig(fs: FileSystem, filename: Path, env: Environment, goos: string, home: Option<Path>,
                     ext: Collaborators) returns (r: Result<Node>, ghost order: seq<string>)
    requires |ext.blankRoot.content| > 0
    modifies fs
    ensures var primary := LoadPrimary(old(fs.entries), filename, ext);
      && (primary.Err? ==> r == primary && fs.entries == old(fs.entries))
      && (primary.Ok? && !IsLegacy(primary.value) ==>
            && fs.entries == ConfigDirEffect(old(fs.entries), env, goos, home)
            && r == MergeOutcome(primary.value,
                     ParseConfigFile(fs.entries, Join(ConfigDirPath(env, goos, home), "hosts.yml"), ext)))
      && (primary.Ok? && IsLegacy(primary.value) ==>
            && (r.Err? ==> r.error.MigratingLegacy? || r.error.Reparse?)
            && (r.Ok? ==> && r == ParseConfigFile(fs.entries, filename, ext)
                          && filename in old(fs.entries) && BackupName(filename) in fs.entries
                          && fs.entries[BackupName(filename)] == old(fs.entries)[filename]))
    ensures var primary, decoded := LoadPrimary(old(fs.entries), filename, ext), DecodeLegacy(old(fs.entries), filename, ext);
      primary.Ok? && IsLegacy(primary.value) ==>
        && (decoded.Err? ==> r == Err(MigratingLegacy(decoded.error)) && fs.entries == old(fs.entries))
        && (decoded.Ok? && r.Err? && r.error.MigratingLegacy? && r.error.cause.SetRejected? ==>
              fs.entries == old(fs.entries) && RejectedFrom(r.error.cause, ext.accepts, decoded.value))
        && (decoded.Ok? && !(r.Err? && r.error.MigratingLegacy? && r.error.cause.SetRejected?) ==>
              && IsOrdering(order, decoded.value.Keys)
              && AllIn(decoded.value, order)
              && AllAccepted(ext.accepts, CallsInOrder(decoded.value, order))
              && var finished := FinishIn(old(fs.entries), filename, ext.render(CallsInOrder(decoded.value, order)));
                 && fs.entries == finished.entries
                 && (finished.err.Some? ==> r == Err(MigratingLegacy(finished.err.value)))
                 && (finished.err == None ==>
                       match ParseConfigFile(finished.entries, filename, ext)
                       case Ok(n) => r == Ok(n)
                       case Err(e) => r == Err(Reparse(e))))
  {
    order := [];
    var parsed := ParseConfigFile(fs.entries, filename, ext);
    var root: Node;
    if parsed.Err? {
      if parsed.error.NotExist? {
        root := ext.blankRoot;
      } else {
        return Err(parsed.error), order;
      }
    } else {
      root := parsed.value;
    }

    if IsLegacy(root) {
      ghost var before := fs.entries;
      var err;
      err, order := MigrateConfig(fs, filename, ext);
      if err.Some? {
        return Err(MigratingLegacy(err.value)), order;
      }
      FinishKeepsBackup(before, filename, ext.render(CallsInOrder(DecodeLegacy(before, filename, ext).value, order)));
      var reparsed := ParseConfigFile(fs.entries, filename, ext);
      if reparsed.Err? {
        return Err(Reparse(reparsed.error)), order;
      }
      root := reparsed.value;
    } else {
      var hostsFile := HostsConfigFile(fs, env, goos, home);
      var hostsParsed := ParseConfigFile(fs.entries, hostsFile, ext);
      if hostsParsed.Ok? {
        var hostsRoot := hostsParsed.value;
        if |hostsRoot.content[0].content| > 0 {
          root := MergeHosts(root, hostsRoot);
        }
      } else if !hostsParsed.error.NotExist? {
        return Err(hostsParsed.error), order;
      }
    }
    return Ok(root), order;
  }

  /** ParseDefaultConfig: parseConfig of ConfigFile(). */
  method ParseDefaultConfig(fs: FileSystem, env: Environment, goos: string, home: Option<Path>,
                            ext: Collaborators) returns (r: Result<Node>)
    requires |ext.blankRoot.content| > 0
    modifies fs
    ensures var filename := Join(ConfigDirPath(env, goos, home), "config.yml");
      var primary := LoadPrimary(ConfigDirEffect(old(fs.entries), env, goos, home), filename, ext);
      primary.Err? ==> r == primary
  {
    var filename := ConfigFile(fs, env, goos, home);
    ghost var order;
    r, order := ParseConfig(fs, filename, env, goos, home, ext);
  }
}
