/** The collaborators that are not part of this model: the yaml library and the Config
    type, represented by their observable behaviour. */
module External {
  import opened Errors
  import opened FileSystems
  import opened Documents

  /** The legacy file's shape: hostname to a list of nodes, the first holding the flat
      key/value list. */
  type LegacyHosts = map<string, seq<Node>>

  /** One Config.Set(host, key, value) call. */
  datatype SetCall = SetCall(host: string, key: string, value: string)

  datatype Collaborators = Collaborators(
    unmarshal: Bytes -> Result<Node>,               // yaml.Unmarshal into a yaml.Node
    unmarshalLegacy: Bytes -> Result<LegacyHosts>,  // yaml.Unmarshal into map[string][]yaml.Node
    accepts: SetCall -> bool,                       // whether Config.Set succeeds
    render: seq<SetCall> -> Bytes,                  // what Config.Write serialises after those Sets
    blankRoot: Node)                                // NewBlankRoot()
}
