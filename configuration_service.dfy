/**
  * The catalog service in memory: groups, group assignments, remembered servers
  * and monitored process names, each updated in place and keyed
  * case-insensitively. `saveCount` counts the requests to persist the document;
  * the file itself is not modelled.
  */
module ConfigService {
  import opened Wrappers
  import opened Text
  import opened Seqs
  import opened Servers
  import opened Config

  // ---------------------------------------------------------------------------
  // The match conditions the service passes to FindIndex, RemoveAll and FirstOrDefault

  function GroupHasId(id: string): ServerGroup -> bool {
    (g: ServerGroup) => g.id == id
  }

  function GroupIdIsNot(id: string): ServerGroup -> bool {
    (g: ServerGroup) => g.id != id
  }

  function NotAssignedToGroup(groupId: string): ServerGroupAssignment -> bool {
    (a: ServerGroupAssignment) => a.groupId != groupId
  }

  /** An assignment whose key equals `serverKey` ignoring case. */
  function AssignmentFor(serverKey: string): ServerGroupAssignment -> bool {
    (a: ServerGroupAssignment) => EqualsIgnoreCase(a.serverKey, serverKey)
  }

  function NotAssignmentFor(serverKey: string): ServerGroupAssignment -> bool {
    (a: ServerGroupAssignment) => !EqualsIgnoreCase(a.serverKey, serverKey)
  }

  /** A remembered entry whose key equals `serverKey` ignoring case. */
  function NotRememberedAs(serverKey: string): RememberedServer -> bool {
    (r: RememberedServer) => !EqualsIgnoreCase(RememberedKey(r), serverKey)
  }

  function NameDiffers(name: string): string -> bool {
    (n: string) => !EqualsIgnoreCase(n, name)
  }

  // ---------------------------------------------------------------------------
  // Groups

  /** `SaveGroup` on the list: replace the first group with the same id, otherwise append. */
  function UpsertGroup(groups: seq<ServerGroup>, group: ServerGroup): (r: seq<ServerGroup>)
    ensures var k := FirstIndex(groups, GroupHasId(group.id));
      if k >= 0 then
        |r| == |groups| && r[k] == group && forall i :: 0 <= i < |groups| && i != k ==> r[i] == groups[i]
      else
        r == groups + [group]
  {
    var k := FirstIndex(groups, GroupHasId(group.id));
    if k >= 0 then groups[k := group] else groups + [group]
  }

  /** After a save, a lookup by the group's id finds exactly the saved group; saving again changes nothing. */
  lemma SavedGroupIsFound(groups: seq<ServerGroup>, group: ServerGroup)
    ensures FirstWhere(UpsertGroup(groups, group), GroupHasId(group.id)) == Some(group)
    ensures UpsertGroup(UpsertGroup(groups, group), group) == UpsertGroup(groups, group)
  {
    var k := FirstIndex(groups, GroupHasId(group.id));
    var r := UpsertGroup(groups, group);
    if k < 0 {
      assert r[|groups|] == group;
      assert GroupHasId(group.id)(r[|groups|]);
    }
    assert r[FirstIndex(r, GroupHasId(group.id))] == group;
  }

  /** Every assignment points at a group that exists. */
  ghost predicate NoDanglingAssignments(groups: seq<ServerGroup>, assignments: seq<ServerGroupAssignment>) {
    forall i :: 0 <= i < |assignments| ==>
      exists j :: 0 <= j < |groups| && groups[j].id == assignments[i].groupId
  }

  /**
    * `DeleteGroup` leaves no group with that id and no assignment pointing at
    * it, and keeps the catalog free of dangling assignments if it was.
    */
  lemma DeleteGroupLeavesNoReference(groups: seq<ServerGroup>, assignments: seq<ServerGroupAssignment>, groupId: string)
    ensures forall g :: g in Filter(groups, GroupIdIsNot(groupId)) ==> g.id != groupId
    ensures forall a :: a in Filter(assignments, NotAssignedToGroup(groupId)) ==> a.groupId != groupId
    ensures NoDanglingAssignments(groups, assignments) ==>
      NoDanglingAssignments(Filter(groups, GroupIdIsNot(groupId)), Filter(assignments, NotAssignedToGroup(groupId)))
  {
    var gs := Filter(groups, GroupIdIsNot(groupId));
    var kept := Filter(assignments, NotAssignedToGroup(groupId));
    if NoDanglingAssignments(groups, assignments) {
      forall i | 0 <= i < |kept| ensures exists j :: 0 <= j < |gs| && gs[j].id == kept[i].groupId {
        var m :| 0 <= m < |assignments| && assignments[m] == kept[i];
        var j :| 0 <= j < |groups| && groups[j].id == assignments[m].groupId;
        assert GroupIdIsNot(groupId)(groups[j]);
        var n :| 0 <= n < |gs| && gs[n] == groups[j];
      }
    }
  }

  // ---------------------------------------------------------------------------
  // Assignments

  /** `AssignServerToGroup` on the list: drop every assignment for the key, then append the new one. */
  function Assign(assignments: seq<ServerGroupAssignment>, serverKey: string, groupId: string): (r: seq<ServerGroupAssignment>)
    ensures |r| > 0 && r[|r| - 1] == ServerGroupAssignment(serverKey, groupId)
  {
    Filter(assignments, NotAssignmentFor(serverKey)) + [ServerGroupAssignment(serverKey, groupId)]
  }

  /** `RemoveServerAssignment` on the list. */
  function Unassign(assignments: seq<ServerGroupAssignment>, serverKey: string): (r: seq<ServerGroupAssignment>)
    ensures |r| <= |assignments|
  {
    Filter(assignments, NotAssignmentFor(serverKey))
  }

  lemma CaseFoldTransitive(a: string, b: string, c: string)
    ensures EqualsIgnoreCase(a, b) && EqualsIgnoreCase(b, c) ==> EqualsIgnoreCase(a, c)
    ensures EqualsIgnoreCase(a, b) ==> EqualsIgnoreCase(b, a)
  {
  }

  /** Removing the assignments of `k` does not touch those of a key that differs from `k`. */
  lemma UnassignKeepsOtherKeys(assignments: seq<ServerGroupAssignment>, k: string, other: string)
    requires !EqualsIgnoreCase(other, k)
    ensures Filter(Unassign(assignments, k), AssignmentFor(other)) == Filter(assignments, AssignmentFor(other))
    ensures FirstWhere(Unassign(assignments, k), AssignmentFor(other)) == FirstWhere(assignments, AssignmentFor(other))
  {
    FilterOfFilterImplied(assignments, NotAssignmentFor(k), AssignmentFor(other));
    FirstWhereIsHeadOfFilter(Unassign(assignments, k), AssignmentFor(other));
    FirstWhereIsHeadOfFilter(assignments, AssignmentFor(other));
  }

  /** After `RemoveServerAssignment(k)` no assignment matches `k`. */
  lemma UnassignRemovesKey(assignments: seq<ServerGroupAssignment>, k: string)
    ensures Filter(Unassign(assignments, k), AssignmentFor(k)) == []
    ensures FirstWhere(Unassign(assignments, k), AssignmentFor(k)) == None
  {
    FilterOfFilterDisjoint(assignments, NotAssignmentFor(k), AssignmentFor(k));
    FirstWhereIsHeadOfFilter(Unassign(assignments, k), AssignmentFor(k));
  }

  /**
    * After `AssignServerToGroup(k, g)` exactly one assignment matches `k`: the
    * last one, with group `g`, and it is what `GetAssignment(k)` returns.
    * Assignments of other keys are as before.
    */
  lemma AssignLeavesExactlyOne(assignments: seq<ServerGroupAssignment>, k: string, g: string, other: string)
    ensures Filter(Assign(assignments, k, g), AssignmentFor(k)) == [ServerGroupAssignment(k, g)]
    ensures FirstWhere(Assign(assignments, k, g), AssignmentFor(k)) == Some(ServerGroupAssignment(k, g))
    ensures !EqualsIgnoreCase(other, k) ==>
      Filter(Assign(assignments, k, g), AssignmentFor(other)) == Filter(assignments, AssignmentFor(other))
  {
    var kept := Unassign(assignments, k);
    var added := [ServerGroupAssignment(k, g)];
    FilterConcat(kept, added, AssignmentFor(k));
    UnassignRemovesKey(assignments, k);
    FirstWhereIsHeadOfFilter(Assign(assignments, k, g), AssignmentFor(k));
    if !EqualsIgnoreCase(other, k) {
      FilterConcat(kept, added, AssignmentFor(other));
      UnassignKeepsOtherKeys(assignments, k, other);
    }
  }

  // ---------------------------------------------------------------------------
  // Remembered servers

  /** The lookup key `RememberServer` builds: `{processName}:{port}`, not lower-cased. */
  function LookupKey(processName: string, port: int): string {
    processName + ":" + IntToDecimal(port)
  }

  /** Matching the lookup key ignoring case is equality of the derived keys. */
  lemma LookupMatchesExactlyTheKey(r: RememberedServer, processName: string, port: int)
    ensures EqualsIgnoreCase(RememberedKey(r), LookupKey(processName, port)) <==> RememberedKey(r) == MakeKey(processName, port)
  {
    KeyIsFolded(r.processName, r.port, processName, port);
    LowerConcat(processName + ":", IntToDecimal(port));
    LowerConcat(processName, ":");
    LowerOfFolded(":");
    LowerOfFolded(IntToDecimal(port));
  }

  /** The position of the first remembered server whose key matches `key` ignoring case, or -1. */
  function RememberedIndex(servers: seq<RememberedServer>, key: string): (r: int)
    ensures -1 <= r < |servers|
    ensures r >= 0 ==> EqualsIgnoreCase(RememberedKey(servers[r]), key)
    ensures r >= 0 ==> forall i :: 0 <= i < r ==> !EqualsIgnoreCase(RememberedKey(servers[i]), key)
    ensures r == -1 ==> forall i :: 0 <= i < |servers| ==> !EqualsIgnoreCase(RememberedKey(servers[i]), key)
  {
    if servers == [] then -1
    else if EqualsIgnoreCase(RememberedKey(servers[0]), key) then 0
    else
      var k := RememberedIndex(servers[1..], key);
      if k == -1 then -1 else k + 1
  }

  /** Whether `RememberServer` changes the catalog (and saves). */
  predicate RememberChanges(servers: seq<RememberedServer>, processName: string, port: int, commandLine: Option<string>) {
    var k := RememberedIndex(servers, LookupKey(processName, port));
    k < 0 || (!IsNullOrEmpty(commandLine) && IsNullOrEmpty(servers[k].commandLine))
  }

  /**
    * `RememberServer` on the list: fill in the first matching entry's command
    * line and working directory when it has no command line and the new one is
    * non-empty; append a new entry when nothing matches.
    */
  function Remember(servers: seq<RememberedServer>, processName: string, port: int,
                    commandLine: Option<string>, workingDirectory: Option<string>): (r: seq<RememberedServer>)
    ensures |servers| <= |r| <= |servers| + 1
    ensures !RememberChanges(servers, processName, port, commandLine) ==> r == servers
  {
    var k := RememberedIndex(servers, LookupKey(processName, port));
    if k < 0 then
      servers + [RememberedServer(processName, port, commandLine, workingDirectory)]
    else if !IsNullOrEmpty(commandLine) && IsNullOrEmpty(servers[k].commandLine) then
      servers[k := servers[k].(commandLine := commandLine, workingDirectory := workingDirectory)]
    else
      servers
  }

  ghost predicate UniqueRememberedKeys(servers: seq<RememberedServer>) {
    DistinctKeys(servers, RememberedKey)
  }

  /** A server that is not yet remembered is appended with exactly the given fields. */
  lemma RememberAppendsUnknown(servers: seq<RememberedServer>, processName: string, port: int,
                               commandLine: Option<string>, workingDirectory: Option<string>)
    requires forall i :: 0 <= i < |servers| ==> RememberedKey(servers[i]) != MakeKey(processName, port)
    ensures Remember(servers, processName, port, commandLine, workingDirectory)
      == servers + [RememberedServer(processName, port, commandLine, workingDirectory)]
  {
    forall i | 0 <= i < |servers| ensures !EqualsIgnoreCase(RememberedKey(servers[i]), LookupKey(processName, port)) {
      LookupMatchesExactlyTheKey(servers[i], processName, port);
    }
  }

  /**
    * What `RememberServer` does to each entry: it only touches the entry with the
    * same key, and only to fill in a missing command line; a known command line
    * is never overwritten. Afterwards the server is remembered.
    */
  lemma RememberNeverDowngrades(servers: seq<RememberedServer>, processName: string, port: int,
                                commandLine: Option<string>, workingDirectory: Option<string>)
    ensures var r := Remember(servers, processName, port, commandLine, workingDirectory);
      && (forall i :: 0 <= i < |servers| && RememberedKey(servers[i]) != MakeKey(processName, port) ==> r[i] == servers[i])
      && (forall i :: 0 <= i < |servers| && !IsNullOrEmpty(servers[i].commandLine) ==> r[i] == servers[i])
      && (forall i :: 0 <= i < |servers| ==> RememberedKey(r[i]) == RememberedKey(servers[i]))
      && (forall i :: 0 <= i < |servers| && r[i] != servers[i] ==>
            r[i] == servers[i].(commandLine := commandLine, workingDirectory := workingDirectory) &&
            !IsNullOrEmpty(commandLine))
      && (exists i :: 0 <= i < |r| && RememberedKey(r[i]) == MakeKey(processName, port))
  {
    var k := RememberedIndex(servers, LookupKey(processName, port));
    var r := Remember(servers, processName, port, commandLine, workingDirectory);
    if k >= 0 {
      LookupMatchesExactlyTheKey(servers[k], processName, port);
      assert RememberedKey(r[k]) == RememberedKey(servers[k]);
    } else {
      assert r[|servers|] == RememberedServer(processName, port, commandLine, workingDirectory);
    }
  }

  /**
    * The fill: when the first entry with the key has no command line and a
    * non-empty one arrives, that entry takes the new command line and working
    * directory, and no other entry changes.
    */
  lemma RememberFillsMissingCommandLine(servers: seq<RememberedServer>, processName: string, port: int,
                                        commandLine: Option<string>, workingDirectory: Option<string>)
    requires var k := RememberedIndex(servers, LookupKey(processName, port));
      k >= 0 && !IsNullOrEmpty(commandLine) && IsNullOrEmpty(servers[k].commandLine)
    ensures var k := RememberedIndex(servers, LookupKey(processName, port));
      var r := Remember(servers, processName, port, commandLine, workingDirectory);
      && |r| == |servers|
      && r[k] == servers[k].(commandLine := commandLine, workingDirectory := workingDirectory)
      && (forall i :: 0 <= i < |servers| && i != k ==> r[i] == servers[i])
  {
  }

  /** `RememberServer` saves exactly when it changes the list. */
  lemma RememberChangesIffChanged(servers: seq<RememberedServer>, processName: string, port: int,
                                  commandLine: Option<string>, workingDirectory: Option<string>)
    ensures RememberChanges(servers, processName, port, commandLine) <==>
      Remember(servers, processName, port, commandLine, workingDirectory) != servers
  {
    var k := RememberedIndex(servers, LookupKey(processName, port));
    var r := Remember(servers, processName, port, commandLine, workingDirectory);
    if k < 0 {
      assert |r| == |servers| + 1;
    } else if !IsNullOrEmpty(commandLine) && IsNullOrEmpty(servers[k].commandLine) {
      assert r[k].commandLine == commandLine != servers[k].commandLine;
    }
  }

  /** `RememberServer` never creates two entries with the same key. */
  lemma RememberKeepsKeysUnique(servers: seq<RememberedServer>, processName: string, port: int,
                                commandLine: Option<string>, workingDirectory: Option<string>)
    requires UniqueRememberedKeys(servers)
    ensures UniqueRememberedKeys(Remember(servers, processName, port, commandLine, workingDirectory))
  {
    var k := RememberedIndex(servers, LookupKey(processName, port));
    var r := Remember(servers, processName, port, commandLine, workingDirectory);
    RememberNeverDowngrades(servers, processName, port, commandLine, workingDirectory);
    if k < 0 {
      forall i | 0 <= i < |servers| ensures RememberedKey(servers[i]) != MakeKey(processName, port) {
        LookupMatchesExactlyTheKey(servers[i], processName, port);
      }
      assert RememberedKey(r[|servers|]) == MakeKey(processName, port);
    }
  }

  /** `ForgetServer` on the list of remembered servers. */
  function Forget(servers: seq<RememberedServer>, serverKey: string): (r: seq<RememberedServer>)
    ensures forall i :: 0 <= i < |r| ==> !EqualsIgnoreCase(RememberedKey(r[i]), serverKey)
    ensures forall i :: 0 <= i < |servers| && !EqualsIgnoreCase(RememberedKey(servers[i]), serverKey) ==> servers[i] in r
  {
    Filter(servers, NotRememberedAs(serverKey))
  }

  lemma ForgetKeepsKeysUnique(servers: seq<RememberedServer>, serverKey: string)
    requires UniqueRememberedKeys(servers)
    ensures UniqueRememberedKeys(Forget(servers, serverKey))
  {
    FilterKeepsKeysDistinct(servers, NotRememberedAs(serverKey), RememberedKey);
  }

  // ---------------------------------------------------------------------------
  // Monitored process names

  predicate HasExeSuffix(s: string) {
    |s| >= 4 && EqualsIgnoreCase(s[|s| - 4..], ".exe")
  }

  /** The name `AddMonitoredProcessName` stores: trimmed, one trailing ".exe" removed. */
  function NormalizeProcessName(processName: string): (r: string)
    ensures var t := Trim(processName); HasExeSuffix(t) ==> r + t[|t| - 4..] == t
    ensures var t := Trim(processName); !HasExeSuffix(t) ==> r == t
  {
    var t := Trim(processName);
    if HasExeSuffix(t) then t[..|t| - 4] else t
  }

  predicate ContainsIgnoreCase(names: seq<string>, name: string) {
    exists i :: 0 <= i < |names| && EqualsIgnoreCase(names[i], name)
  }

  /** `AddMonitoredProcessName` on the list. */
  function AddName(names: seq<string>, processName: string): (r: seq<string>)
    ensures IsBlank(processName) ==> r == names
    ensures !IsBlank(processName) ==> ContainsIgnoreCase(r, NormalizeProcessName(processName))
    ensures r == names || r == names + [NormalizeProcessName(processName)]
    ensures ContainsIgnoreCase(names, NormalizeProcessName(processName)) ==> r == names
    ensures !IsBlank(processName) && !ContainsIgnoreCase(names, NormalizeProcessName(processName)) ==>
      r == names + [NormalizeProcessName(processName)]
  {
    if IsBlank(processName) then names
    else
      var n := NormalizeProcessName(processName);
      if ContainsIgnoreCase(names, n) then names
      else
        assert (names + [n])[|names|] == n;
        names + [n]
  }

  /** `RemoveMonitoredProcessName` on the list: the argument is neither trimmed nor stripped of ".exe". */
  function RemoveName(names: seq<string>, processName: string): (r: seq<string>)
    ensures IsBlank(processName) ==> r == names
    ensures !IsBlank(processName) ==> !ContainsIgnoreCase(r, processName)
    ensures !IsBlank(processName) ==>
      forall i :: 0 <= i < |names| && !EqualsIgnoreCase(names[i], processName) ==> names[i] in r
  {
    if IsBlank(processName) then names else Filter(names, NameDiffers(processName))
  }

  /**
    * `RemoveAll` keeps every other name, as often as it occurred and in its
    * order; only the names equal to the argument ignoring case go.
    */
  lemma RemoveNameKeepsTheRest(names: seq<string>, processName: string)
    ensures IsSubsequence(RemoveName(names, processName), names)
    ensures forall x :: !EqualsIgnoreCase(x, processName) ==>
      multiset(RemoveName(names, processName))[x] == multiset(names)[x]
  {
    if IsBlank(processName) {
      assert RemoveName(names, processName) == names;
      IsSubsequenceOfItself(names);
    } else {
      FilterIsSubsequence(names, NameDiffers(processName));
      forall x | !EqualsIgnoreCase(x, processName)
        ensures multiset(RemoveName(names, processName))[x] == multiset(names)[x]
      {
        FilterMultiset(names, NameDiffers(processName), x);
      }
    }
  }

  /** Adding a name twice is adding it once, and never creates a second case-insensitive copy. */
  lemma AddNameIdempotent(names: seq<string>, processName: string)
    ensures AddName(AddName(names, processName), processName) == AddName(names, processName)
  {
    if !IsBlank(processName) {
      var n := NormalizeProcessName(processName);
      var once := AddName(names, processName);
      if !ContainsIgnoreCase(names, n) {
        assert once[|names|] == n;
        assert ContainsIgnoreCase(once, n);
      }
    }
  }

  /** A trimmed name with ".exe" appended is stored as the bare name. */
  lemma NormalizeStripsExe(name: string)
    requires name != [] && !IsWhiteSpace(name[0]) && !IsWhiteSpace(name[|name| - 1])
    ensures NormalizeProcessName(name + ".exe") == name
  {
    var s := name + ".exe";
    assert s[0] == name[0] && s[|s| - 1] == 'e';
    TrimOfTrimmed(s);
    assert s[|s| - 4..] == ".exe";
    assert s[..|s| - 4] == name;
  }

  /**
    * Removing does not undo adding when the name carried ".exe": adding
    * `"node.exe"` stores `"node"`, and removing `"node.exe"` keeps it.
    */
  lemma RemoveIsNotNormalized(names: seq<string>, name: string)
    requires name != [] && !IsWhiteSpace(name[0]) && !IsWhiteSpace(name[|name| - 1])
    requires forall i :: 0 <= i < |names| ==> !EqualsIgnoreCase(names[i], name)
    ensures AddName(names, name + ".exe") == names + [name]
    ensures name in RemoveName(AddName(names, name + ".exe"), name + ".exe")
  {
    var s := name + ".exe";
    NormalizeStripsExe(name);
    assert !IsBlank(s) by { assert s[0] == name[0]; }
    var added := names + [name];
    assert NameDiffers(s)(added[|names|]) by {
      assert |Lower(s)| != |Lower(name)|;
    }
  }

  // ---------------------------------------------------------------------------
  // The service

  class ConfigurationService {
    /** `_config`. */
    var config: AppConfiguration
    /** How many times `Save()` has been requested. */
    var saveCount: nat

    /** The constructor's `Load()` with no configuration file: the empty catalog. */
    constructor ()
      ensures config == NewConfiguration() && saveCount == 0
    {
      config := NewConfiguration();
      saveCount := 0;
    }

    /** `Save()`: the document would be written; only the request is recorded. */
    method Save()
      modifies this`saveCount
      ensures saveCount == old(saveCount) + 1
    {
      saveCount := saveCount + 1;
    }

    method GetGroups() returns (r: seq<ServerGroup>)
      ensures r == config.groups
    {
      r := config.groups;
    }

    method SaveGroup(group: ServerGroup)
      modifies this
      ensures config == old(config).(groups := UpsertGroup(old(config.groups), group))
      ensures saveCount == old(saveCount) + 1
    {
      var existingIndex := FirstIndex(config.groups, GroupHasId(group.id));
      if existingIndex >= 0 {
        config := config.(groups := config.groups[existingIndex := group]);
      } else {
        config := config.(groups := config.groups + [group]);
      }
      Save();
    }

    method DeleteGroup(groupId: string)
      modifies this
      ensures config == old(config).(groups := Filter(old(config.groups), GroupIdIsNot(groupId)),
                                     assignments := Filter(old(config.assignments), NotAssignedToGroup(groupId)))
      ensures saveCount == old(saveCount) + 1
    {
      config := config.(groups := Filter(config.groups, GroupIdIsNot(groupId)));
      config := config.(assignments := Filter(config.assignments, NotAssignedToGroup(groupId)));
      Save();
    }

    /** The first assignment whose key matches ignoring case, or None. */
    method GetAssignment(serverKey: string) returns (r: Option<ServerGroupAssignment>)
      ensures r.Some? <==> exists i :: 0 <= i < |config.assignments| && EqualsIgnoreCase(config.assignments[i].serverKey, serverKey)
      ensures r == FirstWhere(config.assignments, AssignmentFor(serverKey))
    {
      r := FirstWhere(config.assignments, AssignmentFor(serverKey));
      assert r.Some? ==> AssignmentFor(serverKey)(r.value);
    }

    method AssignServerToGroup(serverKey: string, groupId: string)
      modifies this
      ensures config == old(config).(assignments := Assign(old(config.assignments), serverKey, groupId))
      ensures saveCount == old(saveCount) + 1
    {
      config := config.(assignments := Filter(config.assignments, NotAssignmentFor(serverKey)));
      config := config.(assignments := config.assignments + [ServerGroupAssignment(serverKey, groupId)]);
      Save();
    }

    method RemoveServerAssignment(serverKey: string)
      modifies this
      ensures config == old(config).(assignments := Unassign(old(config.assignments), serverKey))
      ensures saveCount == old(saveCount) + 1
    {
      config := config.(assignments := Filter(config.assignments, NotAssignmentFor(serverKey)));
      Save();
    }

    method GetMonitoredProcessNames() returns (r: seq<string>)
      ensures r == config.monitoredProcessNames
    {
      r := config.monitoredProcessNames;
    }

    /** Blank input is ignored without saving; otherwise the list is saved even when the name was present. */
    method AddMonitoredProcessName(processName: string)
      modifies this
      ensures config == old(config).(monitoredProcessNames := AddName(old(config.monitoredProcessNames), processName))
      ensures saveCount == old(saveCount) + (if IsBlank(processName) then 0 else 1)
    {
      if IsBlank(processName) {
        return;
      }
      var name := Trim(processName);
      if HasExeSuffix(name) {
        name := name[..|name| - 4];
      }
      if !ContainsIgnoreCase(config.monitoredProcessNames, name) {
        config := config.(monitoredProcessNames := config.monitoredProcessNames + [name]);
      }
      Save();
    }

    method RemoveMonitoredProcessName(processName: string)
      modifies this
      ensures config == old(config).(monitoredProcessNames := RemoveName(old(config.monitoredProcessNames), processName))
      ensures saveCount == old(saveCount) + (if IsBlank(processName) then 0 else 1)
    {
      if IsBlank(processName) {
        return;
      }
      config := config.(monitoredProcessNames := Filter(config.monitoredProcessNames, NameDiffers(processName)));
      Save();
    }

    method GetRememberedServers() returns (r: seq<RememberedServer>)
      ensures r == config.rememberedServers
    {
      r := config.rememberedServers;
    }

    /** Saves only when an entry was added or a missing command line was filled in. */
    method RememberServer(processName: string, port: int, commandLine: Option<string>, workingDirectory: Option<string>)
      modifies this
      ensures config == old(config).(rememberedServers :=
        Remember(old(config.rememberedServers), processName, port, commandLine, workingDirectory))
      ensures saveCount == old(saveCount) +
        (if RememberChanges(old(config.rememberedServers), processName, port, commandLine) then 1 else 0)
    {
      var serverKey := LookupKey(processName, port);
      var existing := RememberedIndex(config.rememberedServers, serverKey);
      if existing >= 0 {
        var entry := config.rememberedServers[existing];
        if !IsNullOrEmpty(commandLine) && IsNullOrEmpty(entry.commandLine) {
          entry := entry.(commandLine := commandLine, workingDirectory := workingDirectory);
          config := config.(rememberedServers := config.rememberedServers[existing := entry]);
        } else {
          return;
        }
      } else {
        config := config.(rememberedServers :=
          config.rememberedServers + [RememberedServer(processName, port, commandLine, workingDirectory)]);
      }
      Save();
    }

    /** Removes the remembered entries and the assignments of the key together; groups are untouched. */
    method ForgetServer(serverKey: string)
      modifies this
      ensures config == old(config).(rememberedServers := Forget(old(config.rememberedServers), serverKey),
                                     assignments := Unassign(old(config.assignments), serverKey))
      ensures saveCount == old(saveCount) + 1
    {
      config := config.(rememberedServers := Filter(config.rememberedServers, NotRememberedAs(serverKey)));
      config := config.(assignments := Filter(config.assignments, NotAssignmentFor(serverKey)));
      Save();
    }
  }
}
