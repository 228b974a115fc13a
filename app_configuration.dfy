/**
  * The persisted catalog's records: groups, group assignments, remembered
  * servers, and the root document that holds their lists.
  */
module Config {
  import opened Wrappers
  import opened Text
  import opened Servers

  /** A user-defined group. The id is generated by the caller (a fresh GUID in the source). */
  datatype ServerGroup = ServerGroup(id: string, name: string, color: Option<string>)

  /** Server key to group id. */
  datatype ServerGroupAssignment = ServerGroupAssignment(serverKey: string, groupId: string)

  /** A server that stays listed while it is not running. */
  datatype RememberedServer = RememberedServer(
    processName: string,
    port: int,
    commandLine: Option<string>,
    workingDirectory: Option<string>)

  /** `RememberedServer.ServerKey`: the same derivation as a live server's key. */
  function RememberedKey(r: RememberedServer): string {
    MakeKey(r.processName, r.port)
  }

  /**
    * The root document. `monitoredProcessNames` is used by the service although
    * the record in the source does not declare it; it is kept as a fifth list.
    */
  datatype AppConfiguration = AppConfiguration(
    groups: seq<ServerGroup>,
    assignments: seq<ServerGroupAssignment>,
    ignoredProcessNames: seq<string>,
    rememberedServers: seq<RememberedServer>,
    monitoredProcessNames: seq<string>)

  /** `new AppConfiguration()`: every list starts empty. */
  function NewConfiguration(): (c: AppConfiguration)
    ensures c.groups == [] && c.assignments == [] && c.ignoredProcessNames == []
    ensures c.rememberedServers == [] && c.monitoredProcessNames == []
  {
    AppConfiguration([], [], [], [], [])
  }

  /** `new RememberedServer()`: empty name, port 0, no command line, no working directory. */
  function NewRememberedServer(): (r: RememberedServer)
    ensures r.processName == "" && r.port == 0
    ensures r.commandLine == None && r.workingDirectory == None
    ensures RememberedKey(r) == ":0"
  {
    RememberedServer("", 0, None, None)
  }

  /** The key depends on name and port only, and agrees with the key of a live server. */
  lemma RememberedKeyAgreesWithServerKey(r: RememberedServer, s: ServerProcess,
                                         cl: Option<string>, wd: Option<string>)
    requires s.processName == r.processName && s.port == r.port
    ensures RememberedKey(r) == ServerKey(s)
    ensures RememberedKey(r.(commandLine := cl, workingDirectory := wd)) == RememberedKey(r)
  {
  }
}
