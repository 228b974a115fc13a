/**
  * One row of the server list: the server it shows, its group name, the
  * running/terminating/starting flags that guard its commands, and the command
  * line it keeps for restarting. The row talks to the catalog service it was
  * created with.
  */
module RowViewModel {
  import opened Wrappers
  import opened Text
  import opened Seqs
  import opened Servers
  import opened Config
  import opened ConfigService

  /** Which of the row's callbacks a command ends by invoking. */
  datatype Callback = Refresh | RemoveRow | NoCallback

  /** What `StartAsync` hands to `Process.Start`; a missing directory means the current one. */
  datatype LaunchRequest = LaunchRequest(fileName: string, arguments: string, workingDirectory: Option<string>)

  // ---------------------------------------------------------------------------
  // Group name

  /** The name of the first group with the given id, if any. */
  function GroupNameById(groups: seq<ServerGroup>, groupId: string): Option<string> {
    match FirstWhere(groups, GroupHasId(groupId))
    case None => None
    case Some(g) => Some(g.name)
  }

  /** What `UpdateGroupName` shows for a key: the group of its first assignment, if that group exists. */
  function GroupNameFor(config: AppConfiguration, serverKey: string): Option<string> {
    match FirstWhere(config.assignments, AssignmentFor(serverKey))
    case None => None
    case Some(a) => GroupNameById(config.groups, a.groupId)
  }

  /** A key without assignment shows no group, whatever groups exist. */
  lemma UnassignedShowsNoGroup(config: AppConfiguration, serverKey: string)
    ensures GroupNameFor(config.(assignments := Unassign(config.assignments, serverKey)), serverKey) == None
  {
    UnassignRemovesKey(config.assignments, serverKey);
  }

  /** After assigning a key to a group id, the key shows that group's name (none if no such group exists). */
  lemma AssignedGroupIsShown(config: AppConfiguration, serverKey: string, groupId: string)
    ensures GroupNameFor(config.(assignments := Assign(config.assignments, serverKey, groupId)), serverKey)
      == GroupNameById(config.groups, groupId)
  {
    AssignLeavesExactlyOne(config.assignments, serverKey, groupId, serverKey);
  }

  // ---------------------------------------------------------------------------
  // Splitting a command line

  function IsChar(c: char): char -> bool {
    (x: char) => x == c
  }

  /** `s.IndexOf(c, start)`: the first position at or after `start` holding `c`, or -1. */
  function IndexOf(s: string, c: char, start: nat): (r: int)
    requires start <= |s|
    ensures r == -1 <==> forall i :: start <= i < |s| ==> s[i] != c
    ensures r != -1 ==> start <= r < |s| && s[r] == c && forall i :: start <= i < r ==> s[i] != c
  {
    var k := FirstIndex(s[start..], IsChar(c));
    assert forall i :: start <= i < |s| ==> s[i] == s[start..][i - start];
    if k == -1 then -1 else k + start
  }

  /** The trimmed text starts with a quote and `IndexOf('"', 1)` finds the closing one. */
  predicate StartsQuoted(t: string) {
    |t| > 0 && t[0] == '"' && IndexOf(t, '"', 1) > 0
  }

  /** A leading quote counts as closed exactly when another quote follows it. */
  lemma QuoteClosed(t: string)
    ensures StartsQuoted(t) <==> |t| > 0 && t[0] == '"' && '"' in t[1..]
  {
    if |t| > 0 {
      assert forall j :: 0 <= j < |t[1..]| ==> t[1..][j] == t[j + 1];
    }
  }

  /** `exe` is the text between the leading quote of `t` and the next quote; `args` is what follows, without leading whitespace. */
  predicate QuotedParts(t: string, exe: string, args: string) {
    && |exe| + 2 <= |t|
    && t[..|exe| + 2] == "\"" + exe + "\""
    && '"' !in exe
    && args == TrimStart(t[|exe| + 2..])
  }

  /** `exe` is `t` up to its first space (all of `t` if it has none); `args` is what follows, without leading whitespace. */
  predicate SpacedParts(t: string, exe: string, args: string) {
    && ' ' !in exe
    && (' ' in t ==> |exe| < |t| && t[..|exe|] == exe && t[|exe|] == ' ' && args == TrimStart(t[|exe| + 1..]))
    && (' ' !in t ==> exe == t && args == "")
  }

  /** The quoted branch: the text strictly between the quotes, and the rest without leading whitespace. */
  function SplitQuoted(t: string, endQuote: int): (r: (string, string))
    requires 0 < endQuote < |t| && t[0] == '"' && t[endQuote] == '"'
    requires forall i :: 1 <= i < endQuote ==> t[i] != '"'
    ensures QuotedParts(t, r.0, r.1)
  {
    var exe := t[1..endQuote];
    var args := if endQuote + 1 < |t| then TrimStart(t[endQuote + 1..]) else "";
    QuotedPartsOf(t, endQuote, exe, args);
    (exe, args)
  }

  lemma QuotedPartsOf(t: string, endQuote: int, exe: string, args: string)
    requires 0 < endQuote < |t| && t[0] == '"' && t[endQuote] == '"'
    requires forall i :: 1 <= i < endQuote ==> t[i] != '"'
    requires exe == t[1..endQuote]
    requires args == if endQuote + 1 < |t| then TrimStart(t[endQuote + 1..]) else ""
    ensures QuotedParts(t, exe, args)
  {
    QuotedPrefix(t, endQuote);
    NoQuoteInside(t, endQuote);
    if endQuote + 1 == |t| {
      assert t[|exe| + 2..] == [];
      assert TrimStart([]) == [];
    }
  }

  lemma QuotedPrefix(t: string, endQuote: int)
    requires 0 < endQuote < |t| && t[0] == '"' && t[endQuote] == '"'
    ensures t[..endQuote + 1] == "\"" + t[1..endQuote] + "\""
  {
    assert t[..1] == "\"" && t[endQuote..endQuote + 1] == "\"";
    assert t[..endQuote + 1] == t[..1] + t[1..endQuote] + t[endQuote..endQuote + 1];
  }

  lemma NoQuoteInside(t: string, endQuote: int)
    requires 0 < endQuote < |t|
    requires forall i :: 1 <= i < endQuote ==> t[i] != '"'
    ensures '"' !in t[1..endQuote]
  {
    assert forall i :: 1 <= i < endQuote ==> t[1..endQuote][i - 1] == t[i];
  }

  /** The other branch: split at the first space, if there is one after the first character. */
  function SplitAtSpace(t: string): (r: (string, string))
    requires t == [] || !IsWhiteSpace(t[0])
    ensures SpacedParts(t, r.0, r.1)
  {
    var spaceIndex := IndexOf(t, ' ', 0);
    if spaceIndex > 0 then
      assert forall i :: 0 <= i < spaceIndex ==> t[..spaceIndex][i] == t[i];
      (t[..spaceIndex], TrimStart(t[spaceIndex + 1..]))
    else
      assert spaceIndex != 0 by { assert IsWhiteSpace(' '); }
      assert ' ' !in t;
      (t, "")
  }

  /**
    * `ParseCommandLine` on the trimmed command line: a quoted executable when the
    * leading quote is closed, otherwise a split at the first space.
    */
  function SplitTrimmed(t: string): (r: (string, string))
    requires t == [] || !IsWhiteSpace(t[0])
    ensures StartsQuoted(t) ==> QuotedParts(t, r.0, r.1)
    ensures !StartsQuoted(t) ==> SpacedParts(t, r.0, r.1)
  {
    if StartsQuoted(t) then SplitQuoted(t, IndexOf(t, '"', 1)) else SplitAtSpace(t)
  }

  /** `ParseCommandLine`: split the trimmed command line into executable and arguments. */
  function ParseCommandLine(commandLine: string): (r: (string, string))
    ensures var t := Trim(commandLine); StartsQuoted(t) ==> QuotedParts(t, r.0, r.1)
    ensures var t := Trim(commandLine); !StartsQuoted(t) ==> SpacedParts(t, r.0, r.1)
  {
    SplitTrimmed(Trim(commandLine))
  }

  /** A quoted executable followed by trimmed arguments splits back into the two. */
  lemma QuotedCommandLineRoundTrip(exe: string, args: string)
    requires '"' !in exe
    requires args == [] || (!IsWhiteSpace(args[0]) && !IsWhiteSpace(args[|args| - 1]))
    ensures ParseCommandLine("\"" + exe + "\" " + args) == (exe, args)
  {
    var t := QuotedTrim(exe, args);
    ClosingQuote(t, exe);
    var e := |exe| + 1;
    assert t[0] == t[..e + 1][0] == '"';
    ParseQuotedBranch("\"" + exe + "\" " + args, t, e);
    QuotedSplit(exe, args, t);
  }

  lemma QuotedSplit(exe: string, args: string, t: string)
    requires '"' !in exe
    requires args == [] || (!IsWhiteSpace(args[0]) && !IsWhiteSpace(args[|args| - 1]))
    requires |exe| + 2 <= |t| && t[..|exe| + 2] == "\"" + exe + "\""
    requires args == [] ==> |t| == |exe| + 2
    requires args != [] ==> t[|exe| + 2..] == " " + args
    ensures SplitQuoted(t, |exe| + 1) == (exe, args)
  {
    var e := |exe| + 1;
    assert t[0] == t[..e + 1][0] == '"';
    assert t[1..e] == t[..e + 1][1..e] == exe;
    if args != [] {
      TrimStartPrefix(" ", args);
      TrimOfTrimmed(args);
    }
  }

  lemma ParseQuotedBranch(s: string, t: string, e: int)
    requires Trim(s) == t && |t| > 0 && t[0] == '"' && 0 < e && IndexOf(t, '"', 1) == e
    ensures ParseCommandLine(s) == SplitQuoted(t, e)
  {
  }

  lemma ClosingQuote(t: string, exe: string)
    requires '"' !in exe
    requires |exe| + 2 <= |t| && t[..|exe| + 2] == "\"" + exe + "\""
    ensures IndexOf(t, '"', 1) == |exe| + 1
  {
    assert forall i :: 1 <= i < |exe| + 1 ==> t[i] == t[..|exe| + 2][i] == exe[i - 1];
    assert t[|exe| + 1] == t[..|exe| + 2][|exe| + 1];
  }

  /** Trimming a quoted executable and trimmed arguments only drops the separator when there are no arguments. */
  lemma QuotedTrim(exe: string, args: string) returns (t: string)
    requires args == [] || (!IsWhiteSpace(args[0]) && !IsWhiteSpace(args[|args| - 1]))
    ensures t == Trim("\"" + exe + "\" " + args)
    ensures |exe| + 2 <= |t| && t[..|exe| + 2] == "\"" + exe + "\""
    ensures args == [] ==> |t| == |exe| + 2
    ensures args != [] ==> t[|exe| + 2..] == " " + args
  {
    var quoted := "\"" + exe + "\"";
    var s := quoted + " " + args;
    assert s == "\"" + exe + "\" " + args;
    assert IsWhiteSpace(' ') && !IsWhiteSpace('"');
    if args == [] {
      assert s[..|s| - 1] == quoted;
      TrimOfTrimmed(quoted);
      assert TrimStart(s) == s;
      t := quoted;
      assert t[..|exe| + 2] == quoted;
    } else {
      TrimOfTrimmed(s);
      t := s;
      assert t[..|exe| + 2] == quoted;
      assert t[|exe| + 2..] == " " + args;
    }
  }

  /** An executable without whitespace or leading quote, a space, and trimmed arguments split back into the two. */
  lemma PlainCommandLineRoundTrip(exe: string, args: string)
    requires |exe| > 0 && exe[0] != '"'
    requires forall i :: 0 <= i < |exe| ==> !IsWhiteSpace(exe[i])
    requires args == [] || (!IsWhiteSpace(args[0]) && !IsWhiteSpace(args[|args| - 1]))
    ensures ParseCommandLine(exe + " " + args) == (exe, args)
  {
    if args == [] {
      assert exe + " " + args == exe + " ";
      PlainExecutableRoundTrip(exe);
    } else {
      PlainArgumentsRoundTrip(exe, args);
    }
  }

  lemma PlainExecutableRoundTrip(exe: string)
    requires |exe| > 0 && exe[0] != '"'
    requires forall i :: 0 <= i < |exe| ==> !IsWhiteSpace(exe[i])
    ensures ParseCommandLine(exe + " ") == (exe, "")
  {
    var s := exe + " ";
    assert IsWhiteSpace(' ');
    assert s[..|s| - 1] == exe;
    TrimOfTrimmed(exe);
    assert TrimStart(s) == s;
    assert Trim(s) == exe;
    assert ' ' !in exe;
  }

  lemma PlainArgumentsRoundTrip(exe: string, args: string)
    requires |exe| > 0 && exe[0] != '"'
    requires forall i :: 0 <= i < |exe| ==> !IsWhiteSpace(exe[i])
    requires args != [] && !IsWhiteSpace(args[0]) && !IsWhiteSpace(args[|args| - 1])
    ensures ParseCommandLine(exe + " " + args) == (exe, args)
  {
    var t := exe + " " + args;
    assert t[0] == exe[0] && t[|t| - 1] == args[|args| - 1];
    TrimOfTrimmed(t);
    assert !StartsQuoted(t);
    SpacedPartsOf(exe, args);
    var r := SplitTrimmed(t);
    SpacedPartsUnique(t, r.0, r.1, exe, TrimStart(args));
    TrimOfTrimmed(args);
  }

  /** An executable without spaces, a space, and anything: the split at the first space recovers the executable. */
  lemma SpacedPartsOf(exe: string, args: string)
    requires ' ' !in exe
    ensures SpacedParts(exe + " " + args, exe, TrimStart(args))
  {
    var t := exe + " " + args;
    assert t[|exe|] == ' ';
    assert t[..|exe|] == exe;
    assert t[|exe| + 1..] == args;
  }

  /** A split at the first space is determined by the text. */
  lemma SpacedPartsUnique(t: string, exe1: string, args1: string, exe2: string, args2: string)
    requires SpacedParts(t, exe1, args1) && SpacedParts(t, exe2, args2)
    ensures exe1 == exe2 && args1 == args2
  {
    if ' ' in t {
      FirstSpaceOfParts(t, exe1, args1);
      FirstSpaceOfParts(t, exe2, args2);
    }
  }

  /** With a space in the text, the executable ends at the first space. */
  lemma FirstSpaceOfParts(t: string, exe: string, args: string)
    requires SpacedParts(t, exe, args) && ' ' in t
    ensures |exe| == IndexOf(t, ' ', 0)
  {
    assert forall i :: 0 <= i < |exe| ==> t[i] == t[..|exe|][i];
  }

  // ---------------------------------------------------------------------------
  // The row

  class ServerRowViewModel {
    /** `_server`. */
    var server: ServerProcess
    /** `_groupName`. */
    var groupName: Option<string>
    var isTerminating: bool
    var isRunning: bool
    var isStarting: bool
    /** The command line and working directory kept for restarting. */
    var commandLine: Option<string>
    var workingDirectory: Option<string>
    /** `_configService`. */
    const configService: ConfigurationService
    /** Whether an `onRemove` callback was supplied. */
    const hasRemoveHandler: bool

    /** The row's key; the same as its server's key. */
    function ServerKey(): (r: string)
      reads this
      ensures r == Servers.ServerKey(server)
    {
      Lower(server.processName) + ":" + IntToDecimal(server.port)
    }

    /** The row can be started exactly when it keeps a non-empty command line. */
    predicate CanStart()
      reads this
      ensures CanStart() <==> commandLine.Some? && |commandLine.value| > 0
    {
      !IsNullOrEmpty(commandLine)
    }

    /** Keeps the server's command line, remembers the server in the catalog, and looks up its group. */
    constructor (s: ServerProcess, catalog: ConfigurationService, hasRemoveHandler: bool)
      modifies catalog
      ensures server == s && isRunning && !isTerminating && !isStarting
      ensures commandLine == s.commandLine && workingDirectory == s.workingDirectory
      ensures configService == catalog && this.hasRemoveHandler == hasRemoveHandler
      ensures catalog.config == old(catalog.config).(rememberedServers :=
        Remember(old(catalog.config.rememberedServers), s.processName, s.port, s.commandLine, s.workingDirectory))
      ensures catalog.saveCount == old(catalog.saveCount) +
        (if RememberChanges(old(catalog.config.rememberedServers), s.processName, s.port, s.commandLine) then 1 else 0)
      ensures groupName == GroupNameFor(catalog.config, Servers.ServerKey(s))
    {
      server := s;
      configService := catalog;
      this.hasRemoveHandler := hasRemoveHandler;
      groupName := None;
      isTerminating := false;
      isRunning := true;
      isStarting := false;
      commandLine := s.commandLine;
      workingDirectory := s.workingDirectory;
      new;
      catalog.RememberServer(s.processName, s.port, s.commandLine, s.workingDirectory);
      UpdateGroupName();
    }

    method UpdateGroupName()
      modifies this`groupName
      ensures groupName == GroupNameFor(configService.config, Servers.ServerKey(server))
    {
      var assignment := configService.GetAssignment(Servers.ServerKey(server));
      if assignment.Some? {
        var groups := configService.GetGroups();
        var group := FirstWhere(groups, GroupHasId(assignment.value.groupId));
        groupName := if group.Some? then Some(group.value.name) else None;
      } else {
        groupName := None;
      }
    }

    /**
      * `UpdateRunningState`: the flag is always set; the server is replaced only
      * by a running one; the kept command line is replaced only by a non-empty one.
      */
    method UpdateRunningState(running: bool, runningServer: Option<ServerProcess>)
      modifies this`isRunning, this`server, this`commandLine, this`workingDirectory
      ensures isRunning == running
      ensures server == if running && runningServer.Some? then runningServer.value else old(server)
      ensures if running && runningServer.Some? && !IsNullOrEmpty(runningServer.value.commandLine)
        then commandLine == runningServer.value.commandLine && workingDirectory == runningServer.value.workingDirectory
        else commandLine == old(commandLine) && workingDirectory == old(workingDirectory)
      ensures old(CanStart()) ==> CanStart()
    {
      isRunning := running;
      if running && runningServer.Some? {
        server := runningServer.value;
        if !IsNullOrEmpty(runningServer.value.commandLine) {
          commandLine := runningServer.value.commandLine;
          workingDirectory := runningServer.value.workingDirectory;
        }
      }
    }

    /**
      * The part of `KillProcessAsync` before the await: nothing happens while a
      * termination is in progress or when the server is not running; otherwise
      * the flag is raised and the pid to terminate is returned.
      */
    method BeginKill() returns (target: Option<int>)
      modifies this`isTerminating
      ensures old(isTerminating) || !isRunning ==> target == None && isTerminating == old(isTerminating)
      ensures !old(isTerminating) && isRunning ==> target == Some(server.processId) && isTerminating
    {
      if isTerminating || !isRunning {
        return None;
      }
      isTerminating := true;
      target := Some(server.processId);
    }

    /** The part after the await: refresh, and lower the flag on the way out. */
    method FinishKill() returns (cb: Callback)
      modifies this`isTerminating
      ensures !isTerminating && cb == Refresh
    {
      cb := Refresh;
      isTerminating := false;
    }

    /**
      * The part of `StartAsync` before the await: nothing happens when running,
      * already starting, or without a kept command line; otherwise the flag is
      * raised and the split command line is what would be launched.
      */
    method BeginStart() returns (launch: Option<LaunchRequest>)
      modifies this`isStarting
      ensures isRunning || old(isStarting) || !CanStart() ==> launch == None && isStarting == old(isStarting)
      ensures !isRunning && !old(isStarting) && CanStart() ==>
        isStarting && launch == Some(LaunchRequest(ParseCommandLine(commandLine.value).0,
          ParseCommandLine(commandLine.value).1, workingDirectory))
    {
      if isRunning || isStarting || IsNullOrEmpty(commandLine) {
        return None;
      }
      isStarting := true;
      var (executable, arguments) := ParseCommandLine(commandLine.value);
      launch := Some(LaunchRequest(executable, arguments, workingDirectory));
    }

    /** The part after the await: refresh if the launch did not throw; the flag is lowered either way. */
    method FinishStart(launched: bool) returns (cb: Callback)
      modifies this`isStarting
      ensures !isStarting
      ensures cb == if launched then Refresh else NoCallback
    {
      cb := if launched then Refresh else NoCallback;
      isStarting := false;
    }

    /** Forgets the row's key in the catalog, then asks to be removed (or, without that callback, for a refresh). */
    method Remove() returns (cb: Callback)
      modifies configService
      ensures configService.config == old(configService.config).(
        rememberedServers := Forget(old(configService.config.rememberedServers), ServerKey()),
        assignments := Unassign(old(configService.config.assignments), ServerKey()))
      ensures configService.saveCount == old(configService.saveCount) + 1
      ensures cb == if hasRemoveHandler then RemoveRow else Refresh
    {
      configService.ForgetServer(ServerKey());
      cb := if hasRemoveHandler then RemoveRow else Refresh;
    }

    /**
      * `IgnoreProcess`: the name handed to `AddIgnoredProcessName`, then the same
      * forgetting and callback as `Remove`.
      */
    method IgnoreProcess() returns (ignoredName: string, cb: Callback)
      modifies configService
      ensures ignoredName == server.processName
      ensures configService.config == old(configService.config).(
        rememberedServers := Forget(old(configService.config.rememberedServers), ServerKey()),
        assignments := Unassign(old(configService.config.assignments), ServerKey()))
      ensures configService.saveCount == old(configService.saveCount) + 1
      ensures cb == if hasRemoveHandler then RemoveRow else Refresh
    {
      ignoredName := server.processName;
      configService.ForgetServer(ServerKey());
      cb := if hasRemoveHandler then RemoveRow else Refresh;
    }

    /** Assigns the row's key to the group and shows that group's name. */
    method AssignToGroup(group: ServerGroup) returns (cb: Callback)
      modifies configService, this`groupName
      ensures configService.config == old(configService.config).(
        assignments := Assign(old(configService.config.assignments), Servers.ServerKey(server), group.id))
      ensures configService.saveCount == old(configService.saveCount) + 1
      ensures groupName == GroupNameById(configService.config.groups, group.id)
      ensures cb == Refresh
    {
      configService.AssignServerToGroup(Servers.ServerKey(server), group.id);
      UpdateGroupName();
      AssignedGroupIsShown(old(configService.config), Servers.ServerKey(server), group.id);
      cb := Refresh;
    }

    /** Drops the row's assignment; the row then shows no group. */
    method RemoveFromGroup() returns (cb: Callback)
      modifies configService, this`groupName
      ensures configService.config == old(configService.config).(
        assignments := Unassign(old(configService.config.assignments), Servers.ServerKey(server)))
      ensures configService.saveCount == old(configService.saveCount) + 1
      ensures groupName == None
      ensures cb == Refresh
    {
      configService.RemoveServerAssignment(Servers.ServerKey(server));
      UpdateGroupName();
      UnassignedShowsNoGroup(old(configService.config), Servers.ServerKey(server));
      cb := Refresh;
    }

    /**
      * Saves a new group with the trimmed name under `freshId` (the generated
      * GUID) and assigns the row to it: the row then shows the trimmed name.
      */
    method CreateAndAssignToGroup(name: string, freshId: string)
      modifies configService, this`groupName
      ensures configService.config == old(configService.config).(
        groups := UpsertGroup(old(configService.config.groups), ServerGroup(freshId, Trim(name), None)),
        assignments := Assign(old(configService.config.assignments), Servers.ServerKey(server), freshId))
      ensures configService.saveCount == old(configService.saveCount) + 2
      ensures groupName == Some(Trim(name))
    {
      var group := ServerGroup(freshId, Trim(name), None);
      configService.SaveGroup(group);
      ghost var saved := configService.config;
      configService.AssignServerToGroup(Servers.ServerKey(server), group.id);
      UpdateGroupName();
      AssignedGroupIsShown(saved, Servers.ServerKey(server), group.id);
      SavedGroupIsFound(old(configService.config.groups), group);
    }
  }
}
