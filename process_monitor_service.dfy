/**
  * One poll of the monitor: correlate the process list with the port map,
  * emit one record per listening port, sort by port, and replace the snapshot
  * (raising `ServersChanged`) only when the new list differs from the old one.
  */
module Monitor {
  import opened Wrappers
  import opened Text
  import opened Servers
  import opened ConfigService
  import PortTable

  /** A property read on a live process: its value, or the exception it threw. */
  datatype Probe<T> = Value(value: T) | Threw

  /**
    * One entry of the process enumeration with what reading it yields.
    * `commandLine` and `workingDirectory` are what the WMI lookup returns for
    * the process (that lookup catches its own failures).
    */
  datatype ProcessDescriptor = ProcessDescriptor(
    id: int,
    name: Probe<string>,
    executablePath: Probe<Option<string>>,
    startTime: Probe<Instant>,
    commandLine: Option<string>,
    workingDirectory: Option<string>)

  /**
    * Everything one poll reads: the ignore list, the listener table and the
    * process enumeration.
    */
  datatype PollInput = PollInput(
    ignoredNames: seq<string>,
    tableStatus: int,
    tableRows: seq<PortTable.TcpRow>,
    processes: seq<ProcessDescriptor>)

  // ---------------------------------------------------------------------------
  // Correlation

  /** A process that yields records: every read succeeded, it is not ignored, it listens, and its path is non-empty. */
  predicate Qualifies(p: ProcessDescriptor, ignored: seq<string>, portsByPid: map<int, seq<int>>) {
    && p.name.Value?
    && !ContainsIgnoreCase(ignored, p.name.value)
    && p.id in portsByPid
    && p.executablePath.Value?
    && p.startTime.Value?
    && !IsNullOrEmpty(p.executablePath.value)
  }

  /** The record a qualifying process yields for one of its ports. */
  function RecordFor(p: ProcessDescriptor, port: int): ServerProcess
    requires p.name.Value? && p.executablePath.Value? && p.startTime.Value?
  {
    ServerProcess(p.id, p.name.value, port, p.executablePath.value, Some(p.startTime.value),
      p.commandLine, p.workingDirectory)
  }

  /** What one process contributes to the new list. */
  function RecordsOf(p: ProcessDescriptor, ignored: seq<string>, portsByPid: map<int, seq<int>>): seq<ServerProcess> {
    if Qualifies(p, ignored, portsByPid) then
      var ports := portsByPid[p.id];
      seq(|ports|, k requires 0 <= k < |ports| => RecordFor(p, ports[k]))
    else []
  }

  /** The list the nested loops build, in enumeration order. */
  function Correlate(processes: seq<ProcessDescriptor>, ignored: seq<string>, portsByPid: map<int, seq<int>>): seq<ServerProcess> {
    if processes == [] then []
    else
      Correlate(processes[..|processes| - 1], ignored, portsByPid)
        + RecordsOf(processes[|processes| - 1], ignored, portsByPid)
  }

  method CollectServers(ignored: seq<string>, portsByPid: map<int, seq<int>>, processes: seq<ProcessDescriptor>)
    returns (newServers: seq<ServerProcess>)
    ensures newServers == Correlate(processes, ignored, portsByPid)
  {
    newServers := [];
    for i := 0 to |processes|
      invariant newServers == Correlate(processes[..i], ignored, portsByPid)
    {
      var process := processes[i];
      assert processes[..i + 1][..i] == processes[..i];
      assert processes[..i + 1][i] == process;
      if process.name.Threw? {
        continue;
      }
      var processName := process.name.value;
      if ContainsIgnoreCase(ignored, processName) {
        continue;
      }
      if process.id !in portsByPid {
        continue;
      }
      var ports := portsByPid[process.id];
      if process.executablePath.Threw? || process.startTime.Threw? {
        continue;
      }
      var executablePath := process.executablePath.value;
      var startTime := Some(process.startTime.value);
      if IsNullOrEmpty(executablePath) {
        continue;
      }
      ghost var before := newServers;
      ghost var records := RecordsOf(process, ignored, portsByPid);
      for j := 0 to |ports|
        invariant newServers == before + records[..j]
      {
        newServers := newServers + [ServerProcess(process.id, processName, ports[j], executablePath,
          startTime, process.commandLine, process.workingDirectory)];
        assert records[..j + 1] == records[..j] + [records[j]];
      }
      assert records[..|ports|] == records;
    }
    assert processes[..|processes|] == processes;
  }

  // ---------------------------------------------------------------------------
  // Properties of the correlation

  lemma {:induction false} CorrelateConcat(a: seq<ProcessDescriptor>, b: seq<ProcessDescriptor>,
                                           ignored: seq<string>, portsByPid: map<int, seq<int>>)
    ensures Correlate(a + b, ignored, portsByPid) == Correlate(a, ignored, portsByPid) + Correlate(b, ignored, portsByPid)
  {
    if b == [] {
      assert a + b == a;
    } else {
      var b' := b[..|b| - 1];
      assert (a + b)[..|a + b| - 1] == a + b';
      assert (a + b)[|a + b| - 1] == b[|b| - 1];
      CorrelateConcat(a, b', ignored, portsByPid);
    }
  }

  /**
    * A process whose inspection fails, or that does not qualify for any other
    * reason, is skipped and nothing else about the poll changes.
    */
  lemma SkippedProcessLeavesTheRest(a: seq<ProcessDescriptor>, p: ProcessDescriptor, b: seq<ProcessDescriptor>,
                                    ignored: seq<string>, portsByPid: map<int, seq<int>>)
    requires !Qualifies(p, ignored, portsByPid)
    ensures Correlate(a + [p] + b, ignored, portsByPid) == Correlate(a + b, ignored, portsByPid)
  {
    SplitAround(a, p, b, ignored, portsByPid);
    CorrelateConcat(a, b, ignored, portsByPid);
  }

  /**
    * A qualifying process contributes exactly one record per entry of its port
    * list, in list order, each carrying the process's own attributes.
    */
  lemma OneRecordPerPort(a: seq<ProcessDescriptor>, p: ProcessDescriptor, b: seq<ProcessDescriptor>,
                         ignored: seq<string>, portsByPid: map<int, seq<int>>)
    requires Qualifies(p, ignored, portsByPid)
    ensures var out := Correlate(a + [p] + b, ignored, portsByPid);
      var start := |Correlate(a, ignored, portsByPid)|;
      var ports := portsByPid[p.id];
      start + |ports| <= |out| &&
      forall k :: 0 <= k < |ports| ==>
        && out[start + k].processId == p.id
        && out[start + k].port == ports[k]
        && out[start + k].processName == p.name.value
        && out[start + k].executablePath == p.executablePath.value
        && out[start + k].startTime == Some(p.startTime.value)
        && out[start + k].commandLine == p.commandLine
        && out[start + k].workingDirectory == p.workingDirectory
  {
    RecordsAtOffset(Correlate(a, ignored, portsByPid), RecordsOf(p, ignored, portsByPid),
      Correlate(b, ignored, portsByPid), p, portsByPid[p.id]);
    SplitAround(a, p, b, ignored, portsByPid);
  }

  lemma RecordsAtOffset(front: seq<ServerProcess>, mine: seq<ServerProcess>, back: seq<ServerProcess>,
                        p: ProcessDescriptor, ports: seq<int>)
    requires p.name.Value? && p.executablePath.Value? && p.startTime.Value?
    requires mine == seq(|ports|, k requires 0 <= k < |ports| => RecordFor(p, ports[k]))
    ensures |front| + |ports| <= |front + mine + back|
    ensures forall k :: 0 <= k < |ports| ==> (front + mine + back)[|front| + k] == RecordFor(p, ports[k])
  {
  }

  lemma SplitAround(a: seq<ProcessDescriptor>, p: ProcessDescriptor, b: seq<ProcessDescriptor>,
                    ignored: seq<string>, portsByPid: map<int, seq<int>>)
    ensures Correlate(a + [p] + b, ignored, portsByPid)
      == Correlate(a, ignored, portsByPid) + RecordsOf(p, ignored, portsByPid) + Correlate(b, ignored, portsByPid)
  {
    CorrelateConcat(a + [p], b, ignored, portsByPid);
    CorrelateConcat(a, [p], ignored, portsByPid);
    assert [p][..0] == [];
  }

  /**
    * Every record comes from a qualifying process and one of its ports; in
    * particular no record carries an ignored name, a pid without ports, or an
    * empty executable path.
    */
  lemma {:induction false} RecordsComeFromQualifyingProcesses(processes: seq<ProcessDescriptor>,
                                                              ignored: seq<string>, portsByPid: map<int, seq<int>>)
    ensures forall r :: r in Correlate(processes, ignored, portsByPid) ==>
      && !ContainsIgnoreCase(ignored, r.processName)
      && r.processId in portsByPid
      && r.port in portsByPid[r.processId]
      && r.executablePath.Some? && |r.executablePath.value| > 0
      && (exists i :: 0 <= i < |processes| && Qualifies(processes[i], ignored, portsByPid)
           && r == RecordFor(processes[i], r.port))
  {
    if processes != [] {
      var init := processes[..|processes| - 1];
      var last := processes[|processes| - 1];
      RecordsComeFromQualifyingProcesses(init, ignored, portsByPid);
      forall r | r in Correlate(processes, ignored, portsByPid)
        ensures (exists i :: 0 <= i < |processes| && Qualifies(processes[i], ignored, portsByPid) && r == RecordFor(processes[i], r.port))
      {
        if r in Correlate(init, ignored, portsByPid) {
          var i :| 0 <= i < |init| && Qualifies(init[i], ignored, portsByPid) && r == RecordFor(init[i], r.port);
          assert processes[i] == init[i];
        } else {
          assert r in RecordsOf(last, ignored, portsByPid);
          assert processes[|processes| - 1] == last;
        }
      }
    }
  }

  // ---------------------------------------------------------------------------
  // Sorting by port (`List.Sort` with a port comparison)

  predicate SortedByPort(s: seq<ServerProcess>) {
    forall i, j :: 0 <= i < j < |s| ==> s[i].port <= s[j].port
  }

  function InsertByPort(x: ServerProcess, s: seq<ServerProcess>): (r: seq<ServerProcess>)
    ensures multiset(r) == multiset(s) + multiset{x}
    ensures |r| == |s| + 1
  {
    if s == [] then [x]
    else if x.port <= s[0].port then [x] + s
    else
      assert s == [s[0]] + s[1..];
      [s[0]] + InsertByPort(x, s[1..])
  }

  /** A record no later than the head of a sorted list can go in front of it. */
  lemma ConsSorted(x: ServerProcess, s: seq<ServerProcess>)
    requires SortedByPort(s) && (s == [] || x.port <= s[0].port)
    ensures SortedByPort([x] + s)
  {
    var r := [x] + s;
    forall i, j | 0 <= i < j < |r| ensures r[i].port <= r[j].port {
      assert r[j] == s[j - 1];
      if i > 0 {
        assert r[i] == s[i - 1];
      }
    }
  }

  /** Inserting into a sorted list keeps it sorted; the head is `x` or the old head. */
  lemma {:induction false} InsertByPortSorted(x: ServerProcess, s: seq<ServerProcess>)
    requires SortedByPort(s)
    ensures SortedByPort(InsertByPort(x, s))
    ensures InsertByPort(x, s)[0] == x || (|s| > 0 && InsertByPort(x, s)[0] == s[0])
  {
    if s == [] || x.port <= s[0].port {
      ConsSorted(x, s);
    } else {
      var rest := InsertByPort(x, s[1..]);
      InsertByPortSorted(x, s[1..]);
      ConsSorted(s[0], rest);
    }
  }

  /**
    * The sorted list: non-decreasing by port and a permutation of the input.
    * The library sort is unstable; this one fixes one order for equal ports.
    */
  function SortByPort(s: seq<ServerProcess>): (r: seq<ServerProcess>)
    ensures SortedByPort(r)
    ensures multiset(r) == multiset(s)
  {
    if s == [] then []
    else
      assert s == [s[0]] + s[1..];
      InsertByPortSorted(s[0], SortByPort(s[1..]));
      InsertByPort(s[0], SortByPort(s[1..]))
  }

  // ---------------------------------------------------------------------------
  // Change detection

  /** Same length and `Equals` (process ID and port) at every index. */
  predicate PairwiseSame(a: seq<ServerProcess>, b: seq<ServerProcess>) {
    |a| == |b| && forall i :: 0 <= i < |a| ==> SameServer(a[i], b[i])
  }

  method AreServerListsEqual(a: seq<ServerProcess>, b: seq<ServerProcess>) returns (r: bool)
    ensures r <==> |a| == |b| && forall i :: 0 <= i < |a| ==> a[i].processId == b[i].processId && a[i].port == b[i].port
    ensures r == PairwiseSame(a, b)
  {
    if |a| != |b| {
      return false;
    }
    for i := 0 to |a|
      invariant forall k :: 0 <= k < i ==> SameServer(a[k], b[k])
    {
      if !Equals(a[i], Some(b[i])) {
        return false;
      }
    }
    return true;
  }

  lemma PairwiseSameIsEquivalence(a: seq<ServerProcess>, b: seq<ServerProcess>, c: seq<ServerProcess>)
    ensures PairwiseSame(a, a)
    ensures PairwiseSame(a, b) ==> PairwiseSame(b, a)
    ensures PairwiseSame(a, b) && PairwiseSame(b, c) ==> PairwiseSame(a, c)
  {
  }

  /**
    * Only process IDs and ports are compared: a list whose servers changed
    * their name, path, start time, command line or working directory counts as
    * unchanged, so no event is raised for it.
    */
  lemma AttributeChangesGoUnnoticed(a: seq<ServerProcess>, b: seq<ServerProcess>)
    requires |a| == |b|
    requires forall i :: 0 <= i < |a| ==> b[i] == a[i].(processName := b[i].processName,
      executablePath := b[i].executablePath, startTime := b[i].startTime,
      commandLine := b[i].commandLine, workingDirectory := b[i].workingDirectory)
    ensures PairwiseSame(a, b)
  {
    forall i | 0 <= i < |a| ensures SameServer(a[i], b[i]) {
      assert b[i].processId == a[i].processId && b[i].port == a[i].port;
    }
  }

  /**
    * The comparison is by position: the same two servers in the other order,
    * both orders sorted by port, count as a change.
    */
  lemma ReorderedTiesCountAsChange(x: ServerProcess, y: ServerProcess)
    requires x.port == y.port && x.processId != y.processId
    ensures SortedByPort([x, y]) && SortedByPort([y, x])
    ensures multiset([x, y]) == multiset([y, x])
    ensures !PairwiseSame([x, y], [y, x])
  {
    assert !SameServer([x, y][0], [y, x][0]);
  }

  // ---------------------------------------------------------------------------
  // The service

  /** The sorted list one successful poll produces. */
  function PollResult(poll: PollInput): (r: seq<ServerProcess>)
    ensures SortedByPort(r)
  {
    SortByPort(Correlate(poll.processes, poll.ignoredNames,
      PortTable.ListeningPorts(poll.tableStatus, poll.tableRows)))
  }

  /** Whether a refresh from the snapshot `current` raises `ServersChanged`. */
  predicate PollRaises(current: seq<ServerProcess>, poll: Option<PollInput>) {
    poll.Some? && !PairwiseSame(current, PollResult(poll.value))
  }

  /** The snapshot after a refresh from `current`. */
  function AfterPoll(current: seq<ServerProcess>, poll: Option<PollInput>): seq<ServerProcess> {
    if PollRaises(current, poll) then PollResult(poll.value) else current
  }

  class ProcessMonitorService {
    /** `_currentServers`. */
    var currentServers: seq<ServerProcess>
    /** `_isRunning`: whether the periodic refresh is scheduled. */
    var isRunning: bool
    /** The lists passed to `ServersChanged`, oldest first. */
    var raisedEvents: seq<seq<ServerProcess>>

    constructor ()
      ensures currentServers == [] && !isRunning && raisedEvents == []
    {
      currentServers := [];
      isRunning := false;
      raisedEvents := [];
    }

    /** `CurrentServers`: a copy of the snapshot. */
    method CurrentServers() returns (r: seq<ServerProcess>)
      ensures r == currentServers
    {
      r := currentServers;
    }

    method Start()
      modifies this`isRunning
      ensures isRunning
    {
      if isRunning {
        return;
      }
      isRunning := true;
    }

    method Stop()
      modifies this`isRunning
      ensures !isRunning
    {
      isRunning := false;
    }

    /**
      * `RefreshServers`. `None` is a poll that failed as a whole (the ignore
      * list, the port table or the enumeration threw): it is swallowed.
      */
    method RefreshServers(poll: Option<PollInput>)
      modifies this`currentServers, this`raisedEvents
      ensures poll.None? ==> currentServers == old(currentServers) && raisedEvents == old(raisedEvents)
      ensures poll.Some? && PairwiseSame(old(currentServers), PollResult(poll.value)) ==>
        currentServers == old(currentServers) && raisedEvents == old(raisedEvents)
      ensures poll.Some? && !PairwiseSame(old(currentServers), PollResult(poll.value)) ==>
        currentServers == PollResult(poll.value) && raisedEvents == old(raisedEvents) + [PollResult(poll.value)]
      ensures currentServers == AfterPoll(old(currentServers), poll)
      ensures raisedEvents == old(raisedEvents) + if PollRaises(old(currentServers), poll) then [currentServers] else []
    {
      if poll.None? {
        return;
      }
      var input := poll.value;
      var portsByPid := PortTable.GetListeningPortsByPid(input.tableStatus, input.tableRows);
      var newServers := CollectServers(input.ignoredNames, portsByPid, input.processes);
      newServers := SortByPort(newServers);
      var same := AreServerListsEqual(currentServers, newServers);
      var changed := !same;
      if changed {
        currentServers := newServers;
      }
      if changed {
        raisedEvents := raisedEvents + [newServers];
      }
    }

    /** `Refresh`: the same poll, whether or not the service is running. */
    method Refresh(poll: Option<PollInput>)
      modifies this`currentServers, this`raisedEvents
      ensures poll.None? ==> currentServers == old(currentServers) && raisedEvents == old(raisedEvents)
      ensures poll.Some? && PairwiseSame(old(currentServers), PollResult(poll.value)) ==>
        currentServers == old(currentServers) && raisedEvents == old(raisedEvents)
      ensures poll.Some? && !PairwiseSame(old(currentServers), PollResult(poll.value)) ==>
        currentServers == PollResult(poll.value) && raisedEvents == old(raisedEvents) + [PollResult(poll.value)]
      ensures currentServers == AfterPoll(old(currentServers), poll)
      ensures raisedEvents == old(raisedEvents) + if PollRaises(old(currentServers), poll) then [currentServers] else []
    {
      RefreshServers(poll);
    }
  }

  /**
    * Two refreshes with the same poll in a row: the second finds the snapshot
    * equal to its result, so it keeps the snapshot and raises nothing.
    */
  lemma RepeatedPollIsQuiet(current: seq<ServerProcess>, poll: Option<PollInput>)
    ensures !PollRaises(AfterPoll(current, poll), poll)
    ensures AfterPoll(AfterPoll(current, poll), poll) == AfterPoll(current, poll)
  {
    if poll.Some? {
      var r := PollResult(poll.value);
      PairwiseSameIsEquivalence(r, r, r);
    }
  }
}
