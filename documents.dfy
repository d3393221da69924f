/** The yaml node tree the configuration lives in, its normalisation after parsing, and the
    detection of the legacy host-keyed format. */
module Documents {
  import opened Errors

  /** yaml.Kind; NoKind is the zero Kind that a node built without one carries. */
  datatype NodeKind = NoKind | DocumentNode | SequenceNode | MappingNode | ScalarNode | AliasNode

  /** yaml.Node, reduced to the fields the configuration code reads. */
  datatype Node = Node(kind: NodeKind, value: string, content: seq<Node>)

  /** The value that marks a document in the legacy format. */
  const LegacyMarker := "instill.tech"

  /** A document holding exactly one empty mapping. */
  function BlankDocument(): Node
  {
    Node(DocumentNode, "", [Node(MappingNode, "", [])])
  }

  /** The first content node of the root is a mapping. */
  predicate HasTopLevelMap(root: Node)
  {
    |root.content| > 0 && root.content[0].kind == MappingNode
  }

  /** parseConfigData after yaml.Unmarshal: a library error is passed on, an empty document
      becomes the blank document, and a document whose first node is not a mapping is
      refused. */
  function ParseConfigData(unmarshalled: Result<Node>): (r: Result<Node>)
    ensures r.Ok? ==> HasTopLevelMap(r.value)
    ensures r.Ok? ==> r.value == BlankDocument() || r == unmarshalled
    ensures unmarshalled.Ok? && |unmarshalled.value.content| == 0 ==> r == Ok(BlankDocument())
    ensures unmarshalled.Ok? && HasTopLevelMap(unmarshalled.value) ==> r == unmarshalled
    ensures r.Err? <==> unmarshalled.Err? || (unmarshalled.Ok? && |unmarshalled.value.content| > 0 &&
                                              !HasTopLevelMap(unmarshalled.value))
    ensures r.Err? ==> r == unmarshalled || r == Err(ExpectedTopLevelMap)
  {
    match unmarshalled
    case Err(e) => Err(e)
    case Ok(root) =>
      if |root.content| == 0 then Ok(BlankDocument())
      else if root.content[0].kind != MappingNode then Err(ExpectedTopLevelMap)
      else Ok(root)
  }

  /** Normalising a normalised document changes nothing. */
  lemma ParseConfigDataIdempotent(unmarshalled: Result<Node>)
    requires ParseConfigData(unmarshalled).Ok?
    ensures ParseConfigData(ParseConfigData(unmarshalled)) == ParseConfigData(unmarshalled)
  {
  }

  /** Whether some node of the list has the given value: the range loop in isLegacy. */
  function ContainsValue(nodes: seq<Node>, v: string): (r: bool)
    ensures r <==> exists i :: 0 <= i < |nodes| && nodes[i].value == v
  {
    if |nodes| == 0 then false
    else if nodes[0].value == v then true
    else
      var r := ContainsValue(nodes[1..], v);
      assert forall i :: 0 < i < |nodes| ==> nodes[i] == nodes[1..][i - 1];
      r
  }

  /** isLegacy: some direct child of the top-level node, key or value alike, is the
      legacy marker. */
  function IsLegacy(root: Node): (legacy: bool)
    requires |root.content| > 0
    ensures legacy <==> exists i :: 0 <= i < |root.content[0].content| &&
                                    root.content[0].content[i].value == LegacyMarker
  {
    ContainsValue(root.content[0].content, LegacyMarker)
  }

  lemma {:induction false} ContainsValueAppend(a: seq<Node>, b: seq<Node>, v: string)
    ensures ContainsValue(a + b, v) <==> ContainsValue(a, v) || ContainsValue(b, v)
  {
    if ContainsValue(b, v) {
      var i :| 0 <= i < |b| && b[i].value == v;
      assert (a + b)[|a| + i] == b[i];
    }
    if ContainsValue(a, v) {
      var i :| 0 <= i < |a| && a[i].value == v;
      assert (a + b)[i] == a[i];
    }
  }

  /** The blank document is not legacy. */
  lemma BlankIsNotLegacy()
    ensures !IsLegacy(BlankDocument())
  {
  }
}
