/** migrateConfig: rewriting a legacy host-keyed file into the current format through
    Config.Set, after backing the original up. */
module LegacyConversion {
  import opened Paths
  import opened Errors
  import opened FileSystems
  import opened Documents
  import opened DocumentIO
  import opened External

  /** The Set calls for the first n nodes of a flat key/value list (n even). */
  function PairCalls(host: string, c: seq<Node>, n: nat): (calls: seq<SetCall>)
    requires n <= |c| && n % 2 == 0
    ensures forall i :: 0 <= i < |calls| ==> calls[i].host == host
    decreases n
  {
    if n == 0 then [] else PairCalls(host, c, n - 2) + [SetCall(host, c[n - 2].value, c[n - 1].value)]
  }

  /** The k-th call pairs the nodes at 2k and 2k+1. */
  lemma {:induction false} PairCallsAt(host: string, c: seq<Node>, n: nat)
    requires n <= |c| && n % 2 == 0
    ensures |PairCalls(host, c, n)| == n / 2
    ensures forall k :: 0 <= k < n / 2 ==>
      PairCalls(host, c, n)[k] == SetCall(host, c[2 * k].value, c[2 * k + 1].value)
    decreases n
  {
    if n > 0 {
      PairCallsAt(host, c, n - 2);
    }
  }

  /** The Set calls migrateConfig makes for one host: none when its entry list is empty,
      otherwise one per key/value pair of the first entry, a trailing odd node dropped. */
  function HostCalls(host: string, entries: seq<Node>): (calls: seq<SetCall>)
    ensures |entries| < 1 ==> calls == []
    ensures forall i :: 0 <= i < |calls| ==> calls[i].host == host
  {
    if |entries| < 1 then []
    else
      var c := entries[0].content;
      PairCalls(host, c, |c| - |c| % 2)
  }

  /** Only even indices i with i < |c| - 1 start a pair. */
  lemma HostCallsArePairs(host: string, entries: seq<Node>)
    requires |entries| >= 1
    ensures var c, calls := entries[0].content, HostCalls(host, entries);
      && |calls| == |c| / 2
      && forall k :: 0 <= k < |calls| ==>
           2 * k + 1 < |c| && calls[k] == SetCall(host, c[2 * k].value, c[2 * k + 1].value)
  {
    var c := entries[0].content;
    PairCallsAt(host, c, |c| - |c| % 2);
  }

  predicate AllIn(hosts: LegacyHosts, order: seq<string>)
  {
    forall i :: 0 <= i < |order| ==> order[i] in hosts
  }

  /** The Set calls of the hosts in the given order. */
  function CallsInOrder(hosts: LegacyHosts, order: seq<string>): seq<SetCall>
    requires AllIn(hosts, order)
    decreases |order|
  {
    if order == [] then []
    else
      var last := order[|order| - 1];
      CallsInOrder(hosts, order[..|order| - 1]) + HostCalls(last, hosts[last])
  }

  /** order lists every host exactly once: some iteration order of the Go map. */
  ghost predicate IsOrdering(order: seq<string>, keys: set<string>)
  {
    && (forall i, j :: 0 <= i < j < |order| ==> order[i] != order[j])
    && (forall i :: 0 <= i < |order| ==> order[i] in keys)
    && (forall h :: h in keys ==> h in order)
  }

  predicate AllAccepted(accepts: SetCall -> bool, calls: seq<SetCall>)
  {
    forall i :: 0 <= i < |calls| ==> accepts(calls[i])
  }

  /** The backup and the write that end migrateConfig, once every Set has succeeded. */
  function FinishIn(fs: Entries, filename: Path, data: Bytes): (s: Step)
    ensures RenameIn(fs, filename, BackupName(filename)).Err? ==>
              s == Step(fs, Some(BackupFailed(RenameIn(fs, filename, BackupName(filename)).error)))
    ensures s.err.Some? && !s.err.value.BackupFailed? ==> RenameIn(fs, filename, BackupName(filename)).Ok?
  {
    match RenameIn(fs, filename, BackupName(filename))
    case Err(e) => Step(fs, Some(BackupFailed(e)))
    case Ok(backedUp) => WriteConfigFileIn(backedUp, filename, data)
  }

  /** A completed migration leaves the original verbatim in the backup and the new
      document in the file; a failed backup leaves everything as it was; a failed write
      after the backup still leaves the original in the backup. */
  lemma FinishKeepsBackup(fs: Entries, filename: Path, data: Bytes)
    ensures var s := FinishIn(fs, filename, data);
      && (s.err == None ==>
            && BackupName(filename) in s.entries && s.entries[BackupName(filename)] == fs[filename]
            && ReadConfigFile(s.entries, filename) == Ok(data))
      && (s.err.Some? && s.err.value.BackupFailed? ==> s.entries == fs)
      && (s.err.Some? && !s.err.value.BackupFailed? ==>
            BackupName(filename) in s.entries && s.entries[BackupName(filename)] == fs[filename])
  {
    var s := FinishIn(fs, filename, data);
    if s.err == None {
      BackupKeepsContent(fs, filename);
      var backedUp := RenameIn(fs, filename, BackupName(filename)).value;
      var prepared := MkdirAllIn(backedUp, Dir(filename)).value;
      MkdirAllOnlyAddsDirectories(backedUp, Dir(filename));
      assert BackupName(filename) != filename by {
        assert |BackupName(filename)| == |filename| + 4;
      }
      assert s.entries == prepared[filename := Regular(data)];
      WriteThenRead(backedUp, filename, data);
    } else if RenameIn(fs, filename, BackupName(filename)).Ok? {
      BackupKeepsContent(fs, filename);
      WriteErrorKinds(RenameIn(fs, filename, BackupName(filename)).value, filename, data);
    }
  }

  /** The Config being populated: an abstract recorder of the Set calls it absorbs, which
      Write serialises to its file. */
  class Config {
    var calls: seq<SetCall>
    const accepts: SetCall -> bool
    const render: seq<SetCall> -> Bytes
    const target: Path

    /** NewBlankConfig */
    constructor (accepts: SetCall -> bool, render: seq<SetCall> -> Bytes, target: Path)
      ensures calls == [] && this.accepts == accepts && this.render == render && this.target == target
    {
      calls := [];
      this.accepts := accepts;
      this.render := render;
      this.target := target;
    }

    method Set(host: string, key: string, value: string) returns (err: Option<Error>)
      modifies this
      ensures accepts(SetCall(host, key, value)) ==> err == None && calls == old(calls) + [SetCall(host, key, value)]
      ensures !accepts(SetCall(host, key, value)) ==> err == Some(SetRejected(host, key, value)) && calls == old(calls)
    {
      if accepts(SetCall(host, key, value)) {
        calls := calls + [SetCall(host, key, value)];
        err := None;
      } else {
        err := Some(SetRejected(host, key, value));
      }
    }

    method Write(fs: FileSystem) returns (err: Option<Error>)
      modifies fs
      ensures Step(fs.entries, err) == WriteConfigFileIn(old(fs.entries), target, render(calls))
    {
      err := WriteConfigFile(fs, target, render(calls));
    }
  }

  /** The legacy hosts map decoded from filename, or the error migrateConfig stops with. */
  function DecodeLegacy(fs: Entries, filename: Path, ext: Collaborators): (r: Result<LegacyHosts>)
    ensures !IsRegular(fs, filename) ==> r == Err(ReadConfigFile(fs, filename).error)
    ensures IsRegular(fs, filename) ==>
              match ext.unmarshalLegacy(fs[filename].data)
              case Ok(hosts) => r == Ok(hosts)
              case Err(e) => r == Err(LegacyDecode(e))
  {
    match ReadConfigFile(fs, filename)
    case Err(e) => Err(e)
    case Ok(b) =>
      match ext.unmarshalLegacy(b)
      case Err(e) => Err(LegacyDecode(e))
      case Ok(hosts) => Ok(hosts)
  }

  lemma CallsInOrderExtend(hosts: LegacyHosts, order: seq<string>, h: string)
    requires AllIn(hosts, order) && h in hosts
    ensures AllIn(hosts, order + [h])
    ensures CallsInOrder(hosts, order + [h]) == CallsInOrder(hosts, order) + HostCalls(h, hosts[h])
  {
    assert (order + [h])[..|order|] == order;
  }

  /** A rejected Set call names one of the host's pairs. */
  ghost predicate RejectedFrom(err: Error, accepts: SetCall -> bool, hosts: LegacyHosts)
  {
    err.SetRejected? &&
    var c := SetCall(err.host, err.key, err.value);
    !accepts(c) && c.host in hosts && c in HostCalls(c.host, hosts[c.host])
  }

  /** The inner loop of migrateConfig: the Set calls for one host's entries. */
  method SetHost(cfg: Config, hosts: LegacyHosts, hostname: string) returns (err: Option<Error>)
    requires hostname in hosts
    modifies cfg
    ensures err == None ==> cfg.calls == old(cfg.calls) + HostCalls(hostname, hosts[hostname]) &&
                            AllAccepted(cfg.accepts, cfg.calls[|old(cfg.calls)|..])
    ensures err.Some? ==> RejectedFrom(err.value, cfg.accepts, hosts)
  {
    var entries := hosts[hostname];
    if |entries| < 1 {
      return None;
    }
    var mapContent := entries[0].content;
    var n := |mapContent| - |mapContent| % 2;
    var i := 0;
    while i < |mapContent| - 1
      invariant 0 <= i <= n && i % 2 == 0
      invariant cfg.calls == old(cfg.calls) + PairCalls(hostname, mapContent, i)
      invariant AllAccepted(cfg.accepts, cfg.calls[|old(cfg.calls)|..])
    {
      var e := cfg.Set(hostname, mapContent[i].value, mapContent[i + 1].value);
      if e.Some? {
        PairCallsAt(hostname, mapContent, n);
        assert PairCalls(hostname, mapContent, n)[i / 2] == SetCall(hostname, mapContent[i].value, mapContent[i + 1].value);
        return e;
      }
      i := i + 2;
    }
    return None;
  }

  /** The outer loop of migrateConfig: every host once, in an unspecified order (a Go map
      is ranged over in no fixed order), returned as the ghost `order`. */
  method SetHosts(cfg: Config, hosts: LegacyHosts) returns (err: Option<Error>, ghost order: seq<string>)
    requires cfg.calls == []
    modifies cfg
    ensures err == None ==> IsOrdering(order, hosts.Keys) && AllIn(hosts, order) &&
                            cfg.calls == CallsInOrder(hosts, order) && AllAccepted(cfg.accepts, cfg.calls)
    ensures err.Some? ==> RejectedFrom(err.value, cfg.accepts, hosts)
  {
    order := [];
    var remaining := hosts.Keys;
    while remaining != {}
      invariant remaining <= hosts.Keys
      invariant forall h :: h in hosts ==> h in remaining || h in order
      invariant forall i :: 0 <= i < |order| ==> order[i] in hosts && order[i] !in remaining
      invariant forall i, j :: 0 <= i < j < |order| ==> order[i] != order[j]
      invariant cfg.calls == CallsInOrder(hosts, order)
      invariant AllAccepted(cfg.accepts, cfg.calls)
      decreases remaining
    {
      var hostname :| hostname in remaining;
      remaining := remaining - {hostname};
      ghost var before := cfg.calls;
      err := SetHost(cfg, hosts, hostname);
      if err.Some? {
        return;
      }
      CallsInOrderExtend(hosts, order, hostname);
      assert cfg.calls == before + cfg.calls[|before|..];
      order := order + [hostname];
    }
    err := None;
  }

  /** migrateConfig(filename) */
  method MigrateConfig(fs: FileSystem, filename: Path, ext: Collaborators)
    returns (err: Option<Error>, ghost order: seq<string>)
    modifies fs
    ensures var decoded := DecodeLegacy(old(fs.entries), filename, ext);
      && (decoded.Err? ==> err == Some(decoded.error) && fs.entries == old(fs.entries))
      && (decoded.Ok? && err.Some? && err.value.SetRejected? ==>
            fs.entries == old(fs.entries) && RejectedFrom(err.value, ext.accepts, decoded.value))
      && (decoded.Ok? && !(err.Some? && err.value.SetRejected?) ==>
            && IsOrdering(order, decoded.value.Keys)
            && AllIn(decoded.value, order)
            && AllAccepted(ext.accepts, CallsInOrder(decoded.value, order))
            && Step(fs.entries, err) == FinishIn(old(fs.entries), filename, ext.render(CallsInOrder(decoded.value, order))))
  {
    order := [];
    var b := ReadConfigFile(fs.entries, filename);
    if b.Err? {
      return Some(b.error), order;
    }
    var decoded := ext.unmarshalLegacy(b.value);
    if decoded.Err? {
      return Some(LegacyDecode(decoded.error)), order;
    }
    var cfg := new Config(ext.accepts, ext.render, filename);
    err, order := SetHosts(cfg, decoded.value);
    if err.Some? {
      return;
    }
    err := BackupConfigFile(fs, filename);
    if err.Some? {
      return Some(BackupFailed(err.value)), order;
    }
    ghost var backedUp := fs.entries;
    err := cfg.Write(fs);
    if err.Some? {
      WriteErrorKinds(backedUp, filename, ext.render(cfg.calls));
    }
  }
}
