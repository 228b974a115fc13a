/**
  * The popup's list: `UpdateServers` merges the live servers and the
  * remembered ones into one list of rows, reusing rows by key, orders them
  * grouped-first, then by group name, then by port, and renders the status
  * line.
  */
module MainView {
  import opened Wrappers
  import opened Text
  import opened Seqs
  import opened Servers
  import opened Config
  import opened ConfigService
  import opened RowViewModel

  // ---------------------------------------------------------------------------
  // The order on group names: ordinal, character by character

  predicate StrLess(a: string, b: string) {
    if a == [] then b != []
    else if b == [] then false
    else if a[0] != b[0] then a[0] < b[0]
    else StrLess(a[1..], b[1..])
  }

  lemma {:induction false} StrLessIrreflexive(a: string)
    ensures !StrLess(a, a)
  {
    if a != [] {
      StrLessIrreflexive(a[1..]);
    }
  }

  lemma {:induction false} StrLessTransitive(a: string, b: string, c: string)
    requires StrLess(a, b) && StrLess(b, c)
    ensures StrLess(a, c)
  {
    if a != [] && b != [] && c != [] && a[0] == b[0] && b[0] == c[0] {
      StrLessTransitive(a[1..], b[1..], c[1..]);
    }
  }

  lemma {:induction false} StrLessTotal(a: string, b: string)
    ensures a == b || StrLess(a, b) || StrLess(b, a)
  {
    if a != [] && b != [] && a[0] == b[0] {
      StrLessTotal(a[1..], b[1..]);
      if a[1..] == b[1..] {
        assert a == [a[0]] + a[1..] && b == [b[0]] + b[1..];
      }
    }
  }

  // ---------------------------------------------------------------------------
  // The sort: `OrderBy(rank).ThenBy(group name).ThenBy(port)`

  /** `(IsNullOrEmpty(GroupName) ? 1 : 0, GroupName ?? "", Port)`. */
  datatype SortKey = SortKey(rank: int, group: string, port: int)

  predicate KeyLess(x: SortKey, y: SortKey) {
    || x.rank < y.rank
    || (x.rank == y.rank && StrLess(x.group, y.group))
    || (x.rank == y.rank && x.group == y.group && x.port < y.port)
  }

  lemma KeyLessIsStrictOrder(x: SortKey, y: SortKey, z: SortKey)
    ensures !KeyLess(x, x)
    ensures KeyLess(x, y) && KeyLess(y, z) ==> KeyLess(x, z)
    ensures x == y || KeyLess(x, y) || KeyLess(y, x)
  {
    StrLessIrreflexive(x.group);
    if KeyLess(x, y) && KeyLess(y, z) && x.rank == y.rank == z.rank
      && StrLess(x.group, y.group) && StrLess(y.group, z.group) {
      StrLessTransitive(x.group, y.group, z.group);
    }
    StrLessTotal(x.group, y.group);
  }

  /** Position `i` goes before position `j`: a smaller key, or an equal key and an earlier position. */
  predicate Before(keys: seq<SortKey>, i: int, j: int)
    requires 0 <= i < |keys| && 0 <= j < |keys|
  {
    KeyLess(keys[i], keys[j]) || (keys[i] == keys[j] && i < j)
  }

  lemma BeforeIsStrictOrder(keys: seq<SortKey>, i: int, j: int, k: int)
    requires 0 <= i < |keys| && 0 <= j < |keys| && 0 <= k < |keys|
    ensures !Before(keys, i, i)
    ensures Before(keys, i, j) && Before(keys, j, k) ==> Before(keys, i, k)
    ensures i == j || Before(keys, i, j) || Before(keys, j, i)
  {
    KeyLessIsStrictOrder(keys[i], keys[j], keys[k]);
    KeyLessIsStrictOrder(keys[j], keys[i], keys[k]);
  }

  predicate InRange(keys: seq<SortKey>, s: seq<int>) {
    forall a :: 0 <= a < |s| ==> 0 <= s[a] < |keys|
  }

  /** Every earlier position goes before every later one. */
  predicate Chain(keys: seq<SortKey>, s: seq<int>)
    requires InRange(keys, s)
  {
    forall a, b :: 0 <= a < b < |s| ==> Before(keys, s[a], s[b])
  }

  /** Inserts position `i` into `s` before the first position it goes before. */
  function InsertPosition(keys: seq<SortKey>, i: int, s: seq<int>): (r: seq<int>)
    requires 0 <= i < |keys| && InRange(keys, s)
    ensures |r| == |s| + 1 && InRange(keys, r)
    ensures multiset(r) == multiset(s) + multiset{i}
  {
    if s == [] then [i]
    else if Before(keys, i, s[0]) then [i] + s
    else
      assert s == [s[0]] + s[1..];
      [s[0]] + InsertPosition(keys, i, s[1..])
  }

  /** Inserting into a sorted list of positions keeps it sorted. */
  lemma {:induction false} InsertKeepsChain(keys: seq<SortKey>, i: int, s: seq<int>)
    requires 0 <= i < |keys| && InRange(keys, s) && Chain(keys, s) && i !in s
    ensures Chain(keys, InsertPosition(keys, i, s))
    ensures InsertPosition(keys, i, s)[0] == i || (|s| > 0 && InsertPosition(keys, i, s)[0] == s[0])
  {
    if s == [] {
    } else if Before(keys, i, s[0]) {
      var r := [i] + s;
      forall a, b | 0 <= a < b < |r| ensures Before(keys, r[a], r[b]) {
        if a == 0 && b > 1 {
          BeforeIsStrictOrder(keys, i, s[0], s[b - 1]);
        }
      }
    } else {
      var rest := InsertPosition(keys, i, s[1..]);
      InsertKeepsChain(keys, i, s[1..]);
      BeforeIsStrictOrder(keys, s[0], i, s[0]);
      assert Before(keys, s[0], rest[0]);
      var r := [s[0]] + rest;
      forall a, b | 0 <= a < b < |r| ensures Before(keys, r[a], r[b]) {
        if a == 0 && b > 1 {
          BeforeIsStrictOrder(keys, s[0], rest[0], rest[b - 1]);
        }
      }
    }
  }

  /** The positions `0 .. n-1` in sorted order. */
  function SortPrefix(keys: seq<SortKey>, n: nat): (r: seq<int>)
    requires n <= |keys|
    ensures |r| == n && InRange(keys, r)
    ensures forall a :: 0 <= a < |r| ==> 0 <= r[a] < n
    ensures forall i :: 0 <= i < n ==> i in r
  {
    if n == 0 then []
    else
      var s := SortPrefix(keys, n - 1);
      var r := InsertPosition(keys, n - 1, s);
      assert forall a :: 0 <= a < |r| ==> r[a] in multiset(s) + multiset{n - 1};
      forall i | 0 <= i < n ensures i in r {
        assert i in multiset(r) by {
          if i < n - 1 {
            assert i in s;
            assert i in multiset(s);
          }
        }
      }
      r
  }

  /** `SortPrefix` is sorted. */
  lemma {:induction false} SortPrefixChain(keys: seq<SortKey>, n: nat)
    requires n <= |keys|
    ensures Chain(keys, SortPrefix(keys, n))
  {
    if n > 0 {
      var s := SortPrefix(keys, n - 1);
      SortPrefixChain(keys, n - 1);
      assert n - 1 !in s;
      InsertKeepsChain(keys, n - 1, s);
    }
  }

  /**
    * The stable sort as a permutation of positions: position `order[a]` of the
    * unsorted list is the `a`-th element of the sorted one.
    */
  function SortOrder(keys: seq<SortKey>): (order: seq<int>)
    ensures |order| == |keys|
    ensures forall a :: 0 <= a < |order| ==> 0 <= order[a] < |keys|
  {
    SortPrefix(keys, |keys|)
  }

  /**
    * `SortOrder` is a stable sort: it lists every position exactly once, by
    * ascending key, and equal keys keep their original order.
    */
  lemma SortOrderIsStableSort(keys: seq<SortKey>)
    ensures var order := SortOrder(keys);
      && (forall a, b :: 0 <= a < b < |order| ==> order[a] != order[b])
      && (forall i :: 0 <= i < |keys| ==> i in order)
      && (forall a, b :: 0 <= a < b < |order| ==>
            KeyLess(keys[order[a]], keys[order[b]]) || (keys[order[a]] == keys[order[b]] && order[a] < order[b]))
  {
    var r := SortPrefix(keys, |keys|);
    SortPrefixChain(keys, |keys|);
    forall a, b | 0 <= a < b < |r| ensures r[a] != r[b] {
      BeforeIsStrictOrder(keys, r[a], r[a], r[a]);
    }
  }

  /** The sorted order puts every grouped row before every ungrouped one. */
  lemma GroupedFirst(keys: seq<SortKey>, a: int, b: int)
    requires forall k :: 0 <= k < |keys| ==> keys[k].rank == 0 || keys[k].rank == 1
    requires 0 <= a < b < |keys|
    ensures var order := SortOrder(keys);
      keys[order[a]].rank <= keys[order[b]].rank
  {
    SortOrderIsStableSort(keys);
  }

  // ---------------------------------------------------------------------------
  // The status line

  /** `UpdateStatusText` from the number of running rows and the number of rows. */
  function StatusText(runningCount: nat, totalCount: nat): string {
    if totalCount == 0 then "No servers"
    else if runningCount == totalCount then
      (if runningCount == 1 then "1 server running" else NatToDecimal(runningCount) + " servers running")
    else NatToDecimal(runningCount) + " of " + NatToDecimal(totalCount) + " running"
  }

  /** Reads a status line back into (running, total). */
  function ParseStatus(text: string): Option<(nat, nat)> {
    if text == "No servers" then Some((0, 0))
    else
      var sp := IndexOf(text, ' ', 0);
      if sp <= 0 then None else ParseAfterCount(DecimalValue(text[..sp]), text[sp..])
  }

  /** The part after the first number: " server(s) running", or " of " and the total. */
  function ParseAfterCount(n: nat, rest: string): Option<(nat, nat)> {
    if |rest| >= 4 && rest[..4] == " of " then ParseTotal(n, rest[4..])
    else if rest == " server running" || rest == " servers running" then Some((n, n))
    else None
  }

  function ParseTotal(n: nat, tail: string): Option<(nat, nat)> {
    var sp := IndexOf(tail, ' ', 0);
    if sp > 0 && tail[sp..] == " running" then Some((n, DecimalValue(tail[..sp]))) else None
  }

  /** In a number followed by text that starts with a space, the first space ends the number. */
  lemma SpaceEndsNumber(d: string, rest: string)
    requires |d| > 0 && AllDigits(d) && |rest| > 0 && rest[0] == ' '
    ensures IndexOf(d + rest, ' ', 0) == |d|
    ensures (d + rest)[..|d|] == d && (d + rest)[|d|..] == rest
  {
    assert forall i :: 0 <= i < |d| ==> (d + rest)[i] == d[i];
    assert (d + rest)[|d|] == ' ';
  }

  lemma ParseNumberFirst(d: string, rest: string)
    requires |d| > 0 && AllDigits(d) && |rest| > 0 && rest[0] == ' '
    ensures ParseStatus(d + rest) == ParseAfterCount(DecimalValue(d), rest)
  {
    SpaceEndsNumber(d, rest);
    assert (d + rest)[0] == d[0] && IsDigit(d[0]);
    assert (d + rest) != "No servers" by {
      assert "No servers"[0] == 'N';
    }
  }

  /** After " of ", the total runs up to the space before " running". */
  lemma ParseOfTotal(n: nat, t: string)
    requires |t| > 0 && AllDigits(t)
    ensures ParseAfterCount(n, " of " + t + " running") == Some((n, DecimalValue(t)))
  {
    var tail := t + " running";
    var rest := " of " + tail;
    assert " of " + t + " running" == rest;
    assert rest[..4] == " of " && rest[4..] == tail;
    ParseAfterOf(n, rest, t);
  }

  lemma ParseAfterOf(n: nat, rest: string, t: string)
    requires |t| > 0 && AllDigits(t)
    requires |rest| >= 4 && rest[..4] == " of " && rest[4..] == t + " running"
    ensures ParseAfterCount(n, rest) == Some((n, DecimalValue(t)))
  {
    ParseTotalAfterNumber(n, t);
  }

  lemma ParseTotalAfterNumber(n: nat, t: string)
    requires |t| > 0 && AllDigits(t)
    ensures ParseTotal(n, t + " running") == Some((n, DecimalValue(t)))
  {
    SpaceEndsNumber(t, " running");
  }

  lemma ParseAllRunning(n: nat, suffix: string)
    requires suffix == " server running" || suffix == " servers running"
    ensures ParseAfterCount(n, suffix) == Some((n, n))
  {
    assert suffix[1] == 's' && " of "[1] == 'o';
  }

  /** The status line determines both counts: no two count pairs share a line. */
  lemma StatusTextRoundTrip(runningCount: nat, totalCount: nat)
    requires runningCount <= totalCount
    ensures ParseStatus(StatusText(runningCount, totalCount)) == Some((runningCount, totalCount))
  {
    if totalCount == 0 {
    } else if runningCount == totalCount && runningCount == 1 {
      OneRunningRoundTrip();
    } else if runningCount == totalCount {
      AllRunningRoundTrip(runningCount);
    } else {
      SomeRunningRoundTrip(runningCount, totalCount);
    }
  }

  lemma OneRunningRoundTrip()
    ensures ParseStatus(StatusText(1, 1)) == Some((1, 1))
  {
    assert StatusText(1, 1) == "1" + " server running";
    ParseNumberFirst("1", " server running");
    assert DecimalValue("1") == 1 by {
      assert "1"[..0] == [];
    }
    ParseAllRunning(1, " server running");
  }

  lemma AllRunningRoundTrip(n: nat)
    requires n != 1 && n != 0
    ensures ParseStatus(StatusText(n, n)) == Some((n, n))
  {
    NatDecimalRoundTrip(n);
    var d := NatToDecimal(n);
    assert StatusText(n, n) == d + " servers running";
    ParseNumberFirst(d, " servers running");
    ParseAllRunning(n, " servers running");
  }

  lemma SomeRunningRoundTrip(r: nat, t: nat)
    requires r < t
    ensures ParseStatus(StatusText(r, t)) == Some((r, t))
  {
    NatDecimalRoundTrip(r);
    NatDecimalRoundTrip(t);
    var dr := NatToDecimal(r);
    var dt := NatToDecimal(t);
    var rest := " of " + dt + " running";
    assert StatusText(r, t) == dr + rest;
    ParseNumberFirst(dr, rest);
    ParseOfTotal(r, dt);
  }

  // ---------------------------------------------------------------------------
  // Row states

  /** What a row shows: its server, group name, flags and kept command line. */
  datatype RowState = RowState(
    server: ServerProcess,
    groupName: Option<string>,
    isTerminating: bool,
    isRunning: bool,
    isStarting: bool,
    commandLine: Option<string>,
    workingDirectory: Option<string>)

  function StateOf(row: ServerRowViewModel): RowState
    reads row
  {
    RowState(row.server, row.groupName, row.isTerminating, row.isRunning, row.isStarting,
             row.commandLine, row.workingDirectory)
  }

  function StatesOf(rows: seq<ServerRowViewModel>): (r: seq<RowState>)
    reads rows
    ensures |r| == |rows|
  {
    if rows == [] then []
    else StatesOf(rows[..|rows| - 1]) + [StateOf(rows[|rows| - 1])]
  }

  /** Position by position, the states are the rows' states. */
  lemma {:induction false} StatesOfRows(rows: seq<ServerRowViewModel>)
    ensures forall j :: 0 <= j < |rows| ==> StatesOf(rows)[j] == StateOf(rows[j])
  {
    if rows != [] {
      var n := |rows| - 1;
      StatesOfRows(rows[..n]);
      assert forall j :: 0 <= j < n ==> rows[..n][j] == rows[j];
    }
  }

  /** Rows whose states are given position by position have exactly those states. */
  lemma StatesAre(rows: seq<ServerRowViewModel>, states: seq<RowState>)
    requires |states| == |rows|
    requires forall j :: 0 <= j < |rows| ==> StateOf(rows[j]) == states[j]
    ensures StatesOf(rows) == states
  {
    StatesOfRows(rows);
  }

  /** Reordering the rows reorders their states the same way. */
  lemma StatesOfPermute(rows: seq<ServerRowViewModel>, order: seq<int>)
    requires forall a :: 0 <= a < |order| ==> 0 <= order[a] < |rows|
    ensures StatesOf(Permute(rows, order)) == Permute(StatesOf(rows), order)
  {
    StatesOfRows(rows);
    StatesOfRows(Permute(rows, order));
  }

  /** The rows' keys (`vm.ServerKey`). */
  function KeysOf(states: seq<RowState>): (r: seq<string>)
    ensures |r| == |states|
  {
    seq(|states|, j requires 0 <= j < |states| => ServerKey(states[j].server))
  }

  /** The live servers' keys (`s.ServerKey`). */
  function LiveKeys(running: seq<ServerProcess>): (r: seq<string>)
    ensures |r| == |running|
  {
    seq(|running|, i requires 0 <= i < |running| => ServerKey(running[i]))
  }

  /** Whether `ToDictionary` with an ignore-case comparer accepts the keys: no two match. */
  predicate KeysDistinct(keys: seq<string>) {
    forall i, j :: 0 <= i < j < |keys| ==> !EqualsIgnoreCase(keys[i], keys[j])
  }

  /**
    * A lookup in a dictionary keyed ignoring case (`existingVmsByKey.TryGetValue`,
    * `runningByKey.ContainsKey`): the position of the first key equal to `key`
    * ignoring case, or -1.
    */
  function KeyIndex(existingKeys: seq<string>, key: string): (r: int)
    ensures -1 <= r < |existingKeys|
  {
    if existingKeys == [] then -1
    else if EqualsIgnoreCase(existingKeys[0], key) then 0
    else
      var k := KeyIndex(existingKeys[1..], key);
      if k == -1 then -1 else k + 1
  }

  /** `KeyIndex` finds the first current key that matches, and -1 only when none does. */
  lemma {:induction false} KeyIndexFinds(existingKeys: seq<string>, key: string)
    ensures KeyIndex(existingKeys, key) == -1 <==>
      forall i :: 0 <= i < |existingKeys| ==> !EqualsIgnoreCase(existingKeys[i], key)
    ensures KeyIndex(existingKeys, key) >= 0 ==>
      && EqualsIgnoreCase(existingKeys[KeyIndex(existingKeys, key)], key)
      && forall i :: 0 <= i < KeyIndex(existingKeys, key) ==> !EqualsIgnoreCase(existingKeys[i], key)
  {
    if existingKeys != [] && !EqualsIgnoreCase(existingKeys[0], key) {
      KeyIndexFinds(existingKeys[1..], key);
      assert forall i :: 0 < i < |existingKeys| ==> existingKeys[1..][i - 1] == existingKeys[i];
    }
  }

  // ---------------------------------------------------------------------------
  // The merge plan: which rows `UpdateServers` produces, in order, and which
  // current row each of them reuses

  datatype Source = Live(server: ServerProcess) | Stopped(remembered: RememberedServer)

  /** One row of the new list: what it shows, and the current row it reuses (-1 for a new row). */
  datatype Entry = Entry(source: Source, reuse: int)

  /** The first loop: one row per live server, in the order the monitor reported them. */
  function LiveEntries(running: seq<ServerProcess>, existingKeys: seq<string>): (r: seq<Entry>)
    ensures |r| == |running| && PlanFits(r, |existingKeys|)
  {
    if running == [] then []
    else
      var n := |running| - 1;
      LiveEntries(running[..n], existingKeys) + [Entry(Live(running[n]), KeyIndex(existingKeys, ServerKey(running[n])))]
  }

  /** Position by position, each live server's entry shows it and reuses the row with its key. */
  lemma LiveEntriesAt(running: seq<ServerProcess>, existingKeys: seq<string>)
    ensures forall i :: 0 <= i < |running| ==>
      LiveEntries(running, existingKeys)[i] == Entry(Live(running[i]), KeyIndex(existingKeys, ServerKey(running[i])))
  {
    forall i | 0 <= i < |running|
      ensures LiveEntries(running, existingKeys)[i] == Entry(Live(running[i]), KeyIndex(existingKeys, ServerKey(running[i])))
    {
      LiveEntryAt(running, existingKeys, i);
    }
  }

  lemma {:induction false} LiveEntryAt(running: seq<ServerProcess>, existingKeys: seq<string>, i: int)
    requires 0 <= i < |running|
    ensures LiveEntries(running, existingKeys)[i] == Entry(Live(running[i]), KeyIndex(existingKeys, ServerKey(running[i])))
  {
    var n := |running| - 1;
    var init := running[..n];
    assert LiveEntries(running, existingKeys) ==
      LiveEntries(init, existingKeys) + [Entry(Live(running[n]), KeyIndex(existingKeys, ServerKey(running[n])))];
    if i < n {
      assert init[i] == running[i];
      LiveEntryAt(init, existingKeys, i);
    }
  }

  /** The second loop: one row per remembered server whose key no live server has. */
  function StoppedEntries(remembered: seq<RememberedServer>, liveKeys: seq<string>, existingKeys: seq<string>): (r: seq<Entry>)
    ensures |r| <= |remembered| && PlanFits(r, |existingKeys|)
    ensures forall j :: 0 <= j < |r| ==> r[j].source.Stopped?
  {
    if remembered == [] then []
    else
      var n := |remembered| - 1;
      var init := StoppedEntries(remembered[..n], liveKeys, existingKeys);
      var rs := remembered[n];
      if KeyIndex(liveKeys, RememberedKey(rs)) >= 0 then init
      else init + [Entry(Stopped(rs), KeyIndex(existingKeys, RememberedKey(rs)))]
  }

  /** Each stopped entry shows a remembered server no live server matches, and reuses the row with its key. */
  lemma StoppedEntriesAt(remembered: seq<RememberedServer>, liveKeys: seq<string>, existingKeys: seq<string>)
    ensures forall j :: 0 <= j < |StoppedEntries(remembered, liveKeys, existingKeys)| ==>
      StoppedEntryOf(StoppedEntries(remembered, liveKeys, existingKeys)[j], remembered, liveKeys, existingKeys)
  {
    forall j | 0 <= j < |StoppedEntries(remembered, liveKeys, existingKeys)|
      ensures StoppedEntryOf(StoppedEntries(remembered, liveKeys, existingKeys)[j], remembered, liveKeys, existingKeys)
    {
      StoppedEntryAt(remembered, liveKeys, existingKeys, j);
    }
  }

  lemma {:induction false} StoppedEntryAt(remembered: seq<RememberedServer>, liveKeys: seq<string>,
                                          existingKeys: seq<string>, j: int)
    requires 0 <= j < |StoppedEntries(remembered, liveKeys, existingKeys)|
    ensures StoppedEntryOf(StoppedEntries(remembered, liveKeys, existingKeys)[j], remembered, liveKeys, existingKeys)
  {
    var n := |remembered| - 1;
    var init := StoppedEntries(remembered[..n], liveKeys, existingKeys);
    var r := StoppedEntries(remembered, liveKeys, existingKeys);
    if j < |init| {
      StoppedEntryAt(remembered[..n], liveKeys, existingKeys, j);
      assert r[j] == init[j];
      var k :| 0 <= k < n && remembered[..n][k] == init[j].source.remembered;
      assert remembered[k] == init[j].source.remembered;
    } else {
      KeyIndexFinds(liveKeys, RememberedKey(remembered[n]));
      assert r == init + [Entry(Stopped(remembered[n]), KeyIndex(existingKeys, RememberedKey(remembered[n])))];
    }
  }

  /** A stopped entry reuses the first existing row whose key matches its remembered server. */
  predicate ReusesOwnRow(e: Entry, existingKeys: seq<string>) {
    e.source.Stopped? && e.reuse == KeyIndex(existingKeys, RememberedKey(e.source.remembered))
  }

  /** An entry the second loop produces for one of `remembered`. */
  predicate StoppedEntryOf(e: Entry, remembered: seq<RememberedServer>, liveKeys: seq<string>, existingKeys: seq<string>) {
    && e.source.Stopped?
    && e.source.remembered in remembered
    && !ContainsIgnoreCase(liveKeys, RememberedKey(e.source.remembered))
    && e.reuse == KeyIndex(existingKeys, RememberedKey(e.source.remembered))
  }

  function Plan(running: seq<ServerProcess>, remembered: seq<RememberedServer>, existingKeys: seq<string>): (r: seq<Entry>)
    ensures PlanFits(r, |existingKeys|)
  {
    var live := LiveEntries(running, existingKeys);
    var stopped := StoppedEntries(remembered, LiveKeys(running), existingKeys);
    assert forall j :: 0 <= j < |live + stopped| ==> (live + stopped)[j] == if j < |live| then live[j] else stopped[j - |live|];
    live + stopped
  }

  /** The record a stopped server's new row is built from: process id 0, no path, no start time. */
  function Placeholder(r: RememberedServer): (s: ServerProcess)
    ensures ServerKey(s) == RememberedKey(r)
  {
    ServerProcess(0, r.processName, r.port, None, None, r.commandLine, r.workingDirectory)
  }

  /** The record a new row is constructed with. */
  function SourceServer(source: Source): ServerProcess {
    match source
    case Live(s) => s
    case Stopped(r) => Placeholder(r)
  }

  /** A new row after its constructor and `UpdateRunningState(running)`. */
  function NewRowState(s: ServerProcess, running: bool, config: AppConfiguration): RowState {
    RowState(s, GroupNameFor(config, ServerKey(s)), false, running, false, s.commandLine, s.workingDirectory)
  }

  /** A reused row after `UpdateRunningState(true, s)` and `UpdateGroupName()`. */
  function LiveRowState(b: RowState, s: ServerProcess, config: AppConfiguration): RowState {
    var keep := IsNullOrEmpty(s.commandLine);
    RowState(s, GroupNameFor(config, ServerKey(s)), b.isTerminating, true, b.isStarting,
             if keep then b.commandLine else s.commandLine,
             if keep then b.workingDirectory else s.workingDirectory)
  }

  /** A reused row after `UpdateRunningState(false)` and `UpdateGroupName()`. */
  function StoppedRowState(b: RowState, config: AppConfiguration): RowState {
    b.(isRunning := false, groupName := GroupNameFor(config, ServerKey(b.server)))
  }

  /** The state of the row an entry produces, given the current rows' states. */
  function Expected(e: Entry, before: seq<RowState>, config: AppConfiguration): RowState
    requires e.reuse < |before|
  {
    if e.reuse >= 0 then
      match e.source
      case Live(s) => LiveRowState(before[e.reuse], s, config)
      case Stopped(_) => StoppedRowState(before[e.reuse], config)
    else NewRowState(SourceServer(e.source), e.source.Live?, config)
  }

  predicate PlanFits(plan: seq<Entry>, n: int) {
    forall j :: 0 <= j < |plan| ==> plan[j].reuse < n
  }

  function ExpectedStates(plan: seq<Entry>, before: seq<RowState>, config: AppConfiguration): (r: seq<RowState>)
    requires PlanFits(plan, |before|)
    ensures |r| == |plan|
  {
    if plan == [] then []
    else
      var n := |plan| - 1;
      ExpectedStates(plan[..n], before, config) + [Expected(plan[n], before, config)]
  }

  /** Position by position, the expected states are the entries' states. */
  lemma ExpectedEntries(plan: seq<Entry>, before: seq<RowState>, config: AppConfiguration)
    requires PlanFits(plan, |before|)
    ensures forall j :: 0 <= j < |plan| ==> ExpectedStates(plan, before, config)[j] == Expected(plan[j], before, config)
  {
    forall j | 0 <= j < |plan| ensures ExpectedStates(plan, before, config)[j] == Expected(plan[j], before, config) {
      ExpectedAt(plan, before, config, j);
    }
  }

  lemma {:induction false} ExpectedAt(plan: seq<Entry>, before: seq<RowState>, config: AppConfiguration, j: int)
    requires PlanFits(plan, |before|) && 0 <= j < |plan|
    ensures ExpectedStates(plan, before, config)[j] == Expected(plan[j], before, config)
  {
    var n := |plan| - 1;
    var init := plan[..n];
    assert ExpectedStates(plan, before, config) == ExpectedStates(init, before, config) + [Expected(plan[n], before, config)];
    if j < n {
      assert init[j] == plan[j];
      ExpectedAt(init, before, config, j);
    }
  }

  /** The records handed to row constructors, in order. */
  function CreatedServers(plan: seq<Entry>): seq<ServerProcess> {
    if plan == [] then []
    else
      var n := |plan| - 1;
      CreatedServers(plan[..n]) + (if plan[n].reuse < 0 then [SourceServer(plan[n].source)] else [])
  }

  /** The remembered list after each new row's constructor has called `RememberServer`. */
  function RememberEach(servers: seq<RememberedServer>, created: seq<ServerProcess>): seq<RememberedServer> {
    if created == [] then servers
    else
      var n := |created| - 1;
      var s := created[n];
      Remember(RememberEach(servers, created[..n]), s.processName, s.port, s.commandLine, s.workingDirectory)
  }

  /** How many of those `RememberServer` calls save. */
  function SavesOf(servers: seq<RememberedServer>, created: seq<ServerProcess>): nat {
    if created == [] then 0
    else
      var n := |created| - 1;
      var s := created[n];
      SavesOf(servers, created[..n]) +
        (if RememberChanges(RememberEach(servers, created[..n]), s.processName, s.port, s.commandLine) then 1 else 0)
  }

  /** The sort key of a row: grouped first, then the group name, then the port. */
  function SortKeyOf(st: RowState): SortKey {
    SortKey(if IsNullOrEmpty(st.groupName) then 1 else 0, st.groupName.GetOr(""), st.server.port)
  }

  function SortKeys(states: seq<RowState>): (r: seq<SortKey>)
    ensures |r| == |states|
  {
    seq(|states|, j requires 0 <= j < |states| => SortKeyOf(states[j]))
  }

  /** The list with position `a` holding element `order[a]`. */
  function Permute<T>(xs: seq<T>, order: seq<int>): (r: seq<T>)
    requires forall a :: 0 <= a < |order| ==> 0 <= order[a] < |xs|
    ensures |r| == |order|
  {
    seq(|order|, a requires 0 <= a < |order| => xs[order[a]])
  }

  /** `Servers.Count(s => s.IsRunning)`. */
  function RunningCount(states: seq<RowState>): (r: nat)
    ensures r <= |states|
  {
    if states == [] then 0 else (if states[0].isRunning then 1 else 0) + RunningCount(states[1..])
  }

  // ---------------------------------------------------------------------------
  // Counting running rows

  lemma {:induction false} RunningCountConcat(a: seq<RowState>, b: seq<RowState>)
    ensures RunningCount(a + b) == RunningCount(a) + RunningCount(b)
  {
    if a != [] {
      assert (a + b)[1..] == a[1..] + b;
      RunningCountConcat(a[1..], b);
    } else {
      assert a + b == b;
    }
  }

  lemma {:induction false} AllRunningCount(states: seq<RowState>)
    requires forall j :: 0 <= j < |states| ==> states[j].isRunning
    ensures RunningCount(states) == |states|
  {
    if states != [] {
      AllRunningCount(states[1..]);
    }
  }

  lemma {:induction false} NoneRunningCount(states: seq<RowState>)
    requires forall j :: 0 <= j < |states| ==> !states[j].isRunning
    ensures RunningCount(states) == 0
  {
    if states != [] {
      NoneRunningCount(states[1..]);
    }
  }

  lemma PermuteCons(xs: seq<RowState>, a: int, t: seq<int>)
    requires 0 <= a < |xs| && forall b :: 0 <= b < |t| ==> 0 <= t[b] < |xs|
    ensures RunningCount(Permute(xs, [a] + t)) == (if xs[a].isRunning then 1 else 0) + RunningCount(Permute(xs, t))
  {
    assert Permute(xs, [a] + t)[1..] == Permute(xs, t);
  }

  /** Inserting a position adds that element's contribution to the count. */
  lemma {:induction false} InsertKeepsCount(xs: seq<RowState>, keys: seq<SortKey>, i: int, s: seq<int>)
    requires |xs| == |keys|
    requires 0 <= i < |keys| && InRange(keys, s)
    ensures RunningCount(Permute(xs, InsertPosition(keys, i, s))) ==
      RunningCount(Permute(xs, s)) + (if xs[i].isRunning then 1 else 0)
  {
    if s == [] {
      assert Permute(xs, [i]) == [xs[i]];
      assert Permute(xs, s) == [];
    } else if Before(keys, i, s[0]) {
      PermuteCons(xs, i, s);
    } else {
      assert s == [s[0]] + s[1..];
      InsertKeepsCount(xs, keys, i, s[1..]);
      PermuteCons(xs, s[0], InsertPosition(keys, i, s[1..]));
      PermuteCons(xs, s[0], s[1..]);
    }
  }

  lemma {:induction false} SortPrefixKeepsCount(xs: seq<RowState>, keys: seq<SortKey>, n: nat)
    requires |xs| == |keys| && n <= |keys|
    ensures RunningCount(Permute(xs, SortPrefix(keys, n))) == RunningCount(xs[..n])
  {
    if n == 0 {
      assert Permute(xs, []) == [];
    } else {
      var s := SortPrefix(keys, n - 1);
      SortPrefixKeepsCount(xs, keys, n - 1);
      StepCount(xs, keys, n, s);
      CountSnoc(xs, n);
    }
  }

  lemma StepCount(xs: seq<RowState>, keys: seq<SortKey>, n: nat, s: seq<int>)
    requires |xs| == |keys| && 0 < n <= |keys| && s == SortPrefix(keys, n - 1)
    ensures RunningCount(Permute(xs, SortPrefix(keys, n))) ==
      RunningCount(Permute(xs, s)) + (if xs[n - 1].isRunning then 1 else 0)
  {
    InsertKeepsCount(xs, keys, n - 1, s);
  }

  lemma CountSnoc(xs: seq<RowState>, n: nat)
    requires 0 < n <= |xs|
    ensures RunningCount(xs[..n]) == RunningCount(xs[..n - 1]) + (if xs[n - 1].isRunning then 1 else 0)
  {
    assert xs[..n] == xs[..n - 1] + [xs[n - 1]];
    RunningCountConcat(xs[..n - 1], [xs[n - 1]]);
  }

  /** Sorting the rows does not change how many of them are running. */
  lemma SortKeepsRunningCount(xs: seq<RowState>, keys: seq<SortKey>)
    requires |xs| == |keys|
    ensures RunningCount(Permute(xs, SortOrder(keys))) == RunningCount(xs)
  {
    SortPrefixKeepsCount(xs, keys, |keys|);
    assert xs[..|keys|] == xs;
  }

  // ---------------------------------------------------------------------------
  // What the plan promises

  lemma {:induction false} ExpectedStatesConcat(p: seq<Entry>, q: seq<Entry>, before: seq<RowState>, config: AppConfiguration)
    requires PlanFits(p, |before|) && PlanFits(q, |before|)
    ensures PlanFits(p + q, |before|)
    ensures ExpectedStates(p + q, before, config) == ExpectedStates(p, before, config) + ExpectedStates(q, before, config)
  {
    PlanFitsConcat(p, q, |before|);
    if q == [] {
      assert p + q == p;
    } else {
      var n := |q| - 1;
      var pq := p + q;
      assert pq[..|pq| - 1] == p + q[..n];
      assert pq[|pq| - 1] == q[n];
      PlanFitsPrefix(q, n, |before|);
      ExpectedStatesConcat(p, q[..n], before, config);
      var last := [Expected(q[n], before, config)];
      calc {
        ExpectedStates(pq, before, config);
        ExpectedStates(pq[..|pq| - 1], before, config) + [Expected(pq[|pq| - 1], before, config)];
        ExpectedStates(p + q[..n], before, config) + last;
        ExpectedStates(p, before, config) + ExpectedStates(q[..n], before, config) + last;
        { Associative(ExpectedStates(p, before, config), ExpectedStates(q[..n], before, config), last); }
        ExpectedStates(p, before, config) + ExpectedStates(q, before, config);
      }
    }
  }

  lemma PlanFitsConcat(p: seq<Entry>, q: seq<Entry>, n: int)
    requires PlanFits(p, n) && PlanFits(q, n)
    ensures PlanFits(p + q, n)
  {
    assert forall j :: 0 <= j < |p + q| ==> (p + q)[j] == if j < |p| then p[j] else q[j - |p|];
  }

  lemma PlanFitsPrefix(q: seq<Entry>, k: int, n: int)
    requires PlanFits(q, n) && 0 <= k <= |q|
    ensures PlanFits(q[..k], n)
  {
    assert forall j :: 0 <= j < k ==> q[..k][j] == q[j];
  }

  /** Every row a live server produces is running. */
  lemma LiveRowsRun(live: seq<Entry>, before: seq<RowState>, config: AppConfiguration)
    requires PlanFits(live, |before|) && forall j :: 0 <= j < |live| ==> live[j].source.Live?
    ensures forall j :: 0 <= j < |live| ==> ExpectedStates(live, before, config)[j].isRunning
  {
    ExpectedEntries(live, before, config);
  }

  /** Every row a remembered-only server produces is stopped. */
  lemma StoppedRowsStop(stopped: seq<Entry>, before: seq<RowState>, config: AppConfiguration)
    requires PlanFits(stopped, |before|) && forall j :: 0 <= j < |stopped| ==> stopped[j].source.Stopped?
    ensures forall j :: 0 <= j < |stopped| ==> !ExpectedStates(stopped, before, config)[j].isRunning
  {
    ExpectedEntries(stopped, before, config);
  }

  /** The live rows are all running and the stopped rows none: the status line counts the live servers. */
  lemma PlanRunningCount(running: seq<ServerProcess>, remembered: seq<RememberedServer>, existingKeys: seq<string>,
                         before: seq<RowState>, config: AppConfiguration)
    requires |existingKeys| == |before|
    ensures RunningCount(ExpectedStates(Plan(running, remembered, existingKeys), before, config)) == |running|
  {
    var live := LiveEntries(running, existingKeys);
    var stopped := StoppedEntries(remembered, LiveKeys(running), existingKeys);
    LiveEntriesAt(running, existingKeys);
    StoppedEntriesAt(remembered, LiveKeys(running), existingKeys);
    assert PlanFits(live, |before|) && PlanFits(stopped, |before|);
    ExpectedStatesConcat(live, stopped, before, config);
    var a := ExpectedStates(live, before, config);
    var b := ExpectedStates(stopped, before, config);
    LiveRowsRun(live, before, config);
    StoppedRowsStop(stopped, before, config);
    AllRunningCount(a);
    NoneRunningCount(b);
    RunningCountConcat(a, b);
  }

  /** No two live servers reuse the same row when their keys are distinct. */
  lemma LiveReuseUnique(running: seq<ServerProcess>, existingKeys: seq<string>, k: int)
    requires KeysDistinct(LiveKeys(running)) && 0 <= k < |running|
    ensures forall j :: 0 <= j < k && KeyIndex(existingKeys, ServerKey(running[k])) >= 0 ==>
      LiveEntries(running[..k], existingKeys)[j].reuse != KeyIndex(existingKeys, ServerKey(running[k]))
  {
    var idx := KeyIndex(existingKeys, ServerKey(running[k]));
    var live := LiveEntries(running[..k], existingKeys);
    LiveEntriesAt(running[..k], existingKeys);
    forall j | 0 <= j < k && idx >= 0 ensures live[j].reuse != idx {
      KeyIndexFinds(existingKeys, ServerKey(running[j]));
      KeyIndexFinds(existingKeys, ServerKey(running[k]));
      assert running[..k][j] == running[j];
      assert LiveKeys(running)[j] == ServerKey(running[j]);
      assert LiveKeys(running)[k] == ServerKey(running[k]);
    }
  }

  /** A remembered server that is not live never reuses the row of a live one. */
  lemma StoppedReuseDisjoint(running: seq<ServerProcess>, existingKeys: seq<string>, r: RememberedServer)
    requires KeyIndex(LiveKeys(running), RememberedKey(r)) == -1
    ensures forall j :: 0 <= j < |running| && KeyIndex(existingKeys, RememberedKey(r)) >= 0 ==>
      LiveEntries(running, existingKeys)[j].reuse != KeyIndex(existingKeys, RememberedKey(r))
  {
    var idx := KeyIndex(existingKeys, RememberedKey(r));
    var live := LiveEntries(running, existingKeys);
    LiveEntriesAt(running, existingKeys);
    KeyIndexFinds(LiveKeys(running), RememberedKey(r));
    forall j | 0 <= j < |running| && idx >= 0 ensures live[j].reuse != idx {
      KeyIndexFinds(existingKeys, ServerKey(running[j]));
      KeyIndexFinds(existingKeys, RememberedKey(r));
      assert LiveKeys(running)[j] == ServerKey(running[j]);
    }
  }

  /** One more live server extends the live entries by its own entry. */
  lemma LiveEntriesSnoc(running: seq<ServerProcess>, i: int, existingKeys: seq<string>)
    requires 0 <= i < |running|
    ensures LiveEntries(running[..i + 1], existingKeys) ==
      LiveEntries(running[..i], existingKeys) + [Entry(Live(running[i]), KeyIndex(existingKeys, ServerKey(running[i])))]
  {
    assert running[..i + 1][..i] == running[..i];
  }

  /** One more remembered server extends the plan by its own entry, unless it is live. */
  lemma StoppedEntriesSnoc(live: seq<Entry>, remembered: seq<RememberedServer>, m: int, liveKeys: seq<string>,
                           existingKeys: seq<string>)
    requires 0 <= m < |remembered|
    ensures live + StoppedEntries(remembered[..m + 1], liveKeys, existingKeys) ==
      (if KeyIndex(liveKeys, RememberedKey(remembered[m])) >= 0 then live + StoppedEntries(remembered[..m], liveKeys, existingKeys)
       else
         live + StoppedEntries(remembered[..m], liveKeys, existingKeys) +
         [Entry(Stopped(remembered[m]), KeyIndex(existingKeys, RememberedKey(remembered[m])))])
  {
    assert remembered[..m + 1][..m] == remembered[..m];
    Associative(live, StoppedEntries(remembered[..m], liveKeys, existingKeys),
                [Entry(Stopped(remembered[m]), KeyIndex(existingKeys, RememberedKey(remembered[m])))]);
  }

  lemma AppendTail<T>(a: seq<T>, b: seq<T>, j: int)
    requires |a| <= j < |a| + |b|
    ensures (a + b)[j] == b[j - |a|]
  {
  }

  lemma Associative<T>(a: seq<T>, b: seq<T>, c: seq<T>)
    ensures a + b + c == a + (b + c)
  {
  }

  /**
    * The row of a remembered server that is not live is, if anything, reused
    * so far only by stopped entries.
    */
  lemma StoppedTail(live: seq<Entry>, stopped: seq<Entry>, idx: int)
    requires forall j :: 0 <= j < |live| && idx >= 0 ==> live[j].reuse != idx
    requires forall j :: 0 <= j < |stopped| ==> stopped[j].source.Stopped?
    ensures idx >= 0 ==> OnlyStoppedReuse(live + stopped, idx)
  {
    assert forall j :: |live| <= j < |live + stopped| ==> (live + stopped)[j] == stopped[j - |live|];
  }

  /** The same, for the plan so far in the second loop. */
  lemma StoppedTailPlan(running: seq<ServerProcess>, remembered: seq<RememberedServer>, m: int,
                        existingKeys: seq<string>, r: RememberedServer, plan: seq<Entry>)
    requires 0 <= m <= |remembered| && KeyIndex(LiveKeys(running), RememberedKey(r)) == -1
    requires plan == LiveEntries(running, existingKeys) + StoppedEntries(remembered[..m], LiveKeys(running), existingKeys)
    ensures KeyIndex(existingKeys, RememberedKey(r)) >= 0 ==> OnlyStoppedReuse(plan, KeyIndex(existingKeys, RememberedKey(r)))
  {
    StoppedReuseDisjoint(running, existingKeys, r);
    StoppedTail(LiveEntries(running, existingKeys), StoppedEntries(remembered[..m], LiveKeys(running), existingKeys),
                KeyIndex(existingKeys, RememberedKey(r)));
  }

  /** Every remembered server whose key no live server has gets a stopped row. */
  lemma {:induction false} StoppedEntriesComplete(remembered: seq<RememberedServer>, liveKeys: seq<string>,
                                                  existingKeys: seq<string>, m: int)
    requires 0 <= m < |remembered| && KeyIndex(liveKeys, RememberedKey(remembered[m])) == -1
    ensures (exists j :: 0 <= j < |StoppedEntries(remembered, liveKeys, existingKeys)| &&
               StoppedEntries(remembered, liveKeys, existingKeys)[j].source == Stopped(remembered[m]))
  {
    var n := |remembered| - 1;
    var init := StoppedEntries(remembered[..n], liveKeys, existingKeys);
    var stopped := StoppedEntries(remembered, liveKeys, existingKeys);
    if m == n {
      var e := Entry(Stopped(remembered[n]), KeyIndex(existingKeys, RememberedKey(remembered[n])));
      assert stopped == init + [e];
      var j := |init|;
      assert 0 <= j < |stopped| && stopped[j].source == Stopped(remembered[m]);
    } else {
      StoppedEntriesComplete(remembered[..n], liveKeys, existingKeys, m);
      var j :| 0 <= j < |init| && init[j].source == Stopped(remembered[..n][m]);
      assert stopped[j] == init[j];
    }
  }

  /** Each live server's row shows that server, running. */
  lemma LiveServersShown(running: seq<ServerProcess>, remembered: seq<RememberedServer>, before: seq<RowState>,
                         config: AppConfiguration)
    ensures var st := ExpectedStates(Plan(running, remembered, KeysOf(before)), before, config);
      forall i :: 0 <= i < |running| ==> st[i].server == running[i] && st[i].isRunning
  {
    var keys := KeysOf(before);
    var live := LiveEntries(running, keys);
    var stopped := StoppedEntries(remembered, LiveKeys(running), keys);
    var plan := live + stopped;
    LiveEntriesAt(running, keys);
    ExpectedEntries(plan, before, config);
    assert forall i :: 0 <= i < |running| ==> plan[i] == live[i];
  }

  /** Each remaining row is stopped and shows a server whose key matches its remembered entry. */
  lemma StoppedServersShown(running: seq<ServerProcess>, remembered: seq<RememberedServer>, before: seq<RowState>,
                            config: AppConfiguration)
    ensures var plan := Plan(running, remembered, KeysOf(before));
      var st := ExpectedStates(plan, before, config);
      forall j :: |running| <= j < |st| ==>
        && plan[j].source.Stopped?
        && !st[j].isRunning
        && ServerKey(st[j].server) == RememberedKey(plan[j].source.remembered)
  {
    var plan := Plan(running, remembered, KeysOf(before));
    forall j | |running| <= j < |plan|
      ensures var st := ExpectedStates(plan, before, config);
        && plan[j].source.Stopped?
        && !st[j].isRunning
        && ServerKey(st[j].server) == RememberedKey(plan[j].source.remembered)
    {
      StoppedServerShownAt(running, remembered, before, config, j);
    }
  }

  lemma StoppedServerShownAt(running: seq<ServerProcess>, remembered: seq<RememberedServer>, before: seq<RowState>,
                             config: AppConfiguration, j: int)
    requires |running| <= j < |Plan(running, remembered, KeysOf(before))|
    ensures var plan := Plan(running, remembered, KeysOf(before));
      var st := ExpectedStates(plan, before, config);
      && plan[j].source.Stopped?
      && !st[j].isRunning
      && ServerKey(st[j].server) == RememberedKey(plan[j].source.remembered)
  {
    var plan := Plan(running, remembered, KeysOf(before));
    StoppedPlanEntry(running, remembered, KeysOf(before), j);
    ExpectedAt(plan, before, config, j);
    StoppedStateAt(plan[j], before, config);
  }

  /** Past the live servers, each entry is a stopped one that reuses the row with its key. */
  lemma StoppedPlanEntry(running: seq<ServerProcess>, remembered: seq<RememberedServer>, existingKeys: seq<string>, j: int)
    requires |running| <= j < |Plan(running, remembered, existingKeys)|
    ensures ReusesOwnRow(Plan(running, remembered, existingKeys)[j], existingKeys)
  {
    PlanTail(running, remembered, existingKeys, j);
    StoppedEntryReuse(remembered, LiveKeys(running), existingKeys, j - |running|);
  }

  lemma {:induction false} StoppedEntryReuse(remembered: seq<RememberedServer>, liveKeys: seq<string>,
                                             existingKeys: seq<string>, j: int)
    requires 0 <= j < |StoppedEntries(remembered, liveKeys, existingKeys)|
    ensures ReusesOwnRow(StoppedEntries(remembered, liveKeys, existingKeys)[j], existingKeys)
  {
    var n := |remembered| - 1;
    var init := StoppedEntries(remembered[..n], liveKeys, existingKeys);
    var r := StoppedEntries(remembered, liveKeys, existingKeys);
    if j < |init| {
      StoppedEntryReuse(remembered[..n], liveKeys, existingKeys, j);
      assert r[j] == init[j];
    } else {
      assert r == init + [Entry(Stopped(remembered[n]), KeyIndex(existingKeys, RememberedKey(remembered[n])))];
    }
  }

  /** Past the live servers, the plan is the stopped entries. */
  lemma PlanTail(running: seq<ServerProcess>, remembered: seq<RememberedServer>, existingKeys: seq<string>, j: int)
    requires |running| <= j < |Plan(running, remembered, existingKeys)|
    ensures 0 <= j - |running| < |StoppedEntries(remembered, LiveKeys(running), existingKeys)|
    ensures Plan(running, remembered, existingKeys)[j] == StoppedEntries(remembered, LiveKeys(running), existingKeys)[j - |running|]
  {
    var live := LiveEntries(running, existingKeys);
    var stopped := StoppedEntries(remembered, LiveKeys(running), existingKeys);
    AppendTail(live, stopped, j);
  }

  /** A stopped entry's row is not running and shows a server with the remembered key. */
  lemma StoppedStateAt(e: Entry, before: seq<RowState>, config: AppConfiguration)
    requires e.reuse < |before| && ReusesOwnRow(e, KeysOf(before))
    ensures !Expected(e, before, config).isRunning
    ensures ServerKey(Expected(e, before, config).server) == RememberedKey(e.source.remembered)
    ensures e.reuse >= 0 ==> Expected(e, before, config).server == before[e.reuse].server
    ensures e.reuse < 0 ==> Expected(e, before, config).server == Placeholder(e.source.remembered)
  {
    if e.reuse >= 0 {
      var r, b := e.source.remembered, before[e.reuse].server;
      KeyIndexFinds(KeysOf(before), RememberedKey(r));
      assert KeysOf(before)[e.reuse] == ServerKey(b);
      KeyIsFolded(b.processName, b.port, r.processName, r.port);
    }
  }

  /** Every row shows the group its own key is assigned to. */
  lemma RowsShowTheirGroup(plan: seq<Entry>, before: seq<RowState>, config: AppConfiguration)
    requires PlanFits(plan, |before|)
    ensures var st := ExpectedStates(plan, before, config);
      forall j :: 0 <= j < |st| ==> st[j].groupName == GroupNameFor(config, ServerKey(st[j].server))
  {
    ExpectedEntries(plan, before, config);
  }

  /**
    * A reused row keeps its terminating and starting flags and, once it could
    * be restarted, still can; a new row starts with both flags clear.
    */
  lemma ReusedRowsKeepFlags(plan: seq<Entry>, before: seq<RowState>, config: AppConfiguration)
    requires PlanFits(plan, |before|)
    ensures var st := ExpectedStates(plan, before, config);
      && (forall j :: 0 <= j < |st| && plan[j].reuse >= 0 ==>
            && st[j].isTerminating == before[plan[j].reuse].isTerminating
            && st[j].isStarting == before[plan[j].reuse].isStarting
            && (!IsNullOrEmpty(before[plan[j].reuse].commandLine) ==> !IsNullOrEmpty(st[j].commandLine)))
      && (forall j :: 0 <= j < |st| && plan[j].reuse < 0 ==> !st[j].isTerminating && !st[j].isStarting)
  {
    ExpectedEntries(plan, before, config);
  }

  // ---------------------------------------------------------------------------
  // Removing a row

  /** `Collection.Remove`: the first occurrence of `x` taken out (rows compare by reference). */
  function RemoveFirst<T(==)>(s: seq<T>, x: T): (r: seq<T>)
    ensures x !in s ==> r == s
    ensures x in s ==> |r| == |s| - 1
    ensures forall j :: 0 <= j < |r| ==> r[j] in s
  {
    if s == [] then []
    else if s[0] == x then s[1..]
    else [s[0]] + RemoveFirst(s[1..], x)
  }

  /** What is removed is exactly the first occurrence; the rest keeps its order. */
  lemma {:induction false} RemoveFirstAt<T>(s: seq<T>, x: T, k: int)
    requires 0 <= k < |s| && s[k] == x && x !in s[..k]
    ensures RemoveFirst(s, x) == s[..k] + s[k + 1..]
  {
    if k > 0 {
      assert s[0] in s[..k];
      assert s[1..][..k - 1] == s[1..k];
      RemoveFirstAt(s[1..], x, k - 1);
      assert s[1..][k..] == s[k + 1..];
    }
  }

  // ---------------------------------------------------------------------------
  // The step invariants of `UpdateServers`

  predicate NotReused(plan: seq<Entry>, i: int) {
    forall j :: 0 <= j < |plan| ==> plan[j].reuse != i
  }

  /** Only stopped entries reuse row `i`. */
  predicate OnlyStoppedReuse(plan: seq<Entry>, i: int) {
    forall j :: 0 <= j < |plan| && plan[j].reuse == i ==> plan[j].source.Stopped?
  }

  predicate DistinctRows(rows: seq<ServerRowViewModel>) {
    forall i, j :: 0 <= i < j < |rows| ==> rows[i] != rows[j]
  }

  /**
    * The rows built so far have the plan's shape: a reused entry holds the
    * current row it names, a new entry a row that is not a current one, and
    * every row talks to the catalog and reports removal.
    */
  predicate Shaped(built: seq<ServerRowViewModel>, plan: seq<Entry>, oldRows: seq<ServerRowViewModel>,
                   before: seq<RowState>, catalog: ConfigurationService)
  {
    && |built| == |plan| && |before| == |oldRows| && PlanFits(plan, |oldRows|)
    && (forall j :: 0 <= j < |plan| ==> built[j].configService == catalog && built[j].hasRemoveHandler)
    && (forall j :: 0 <= j < |plan| ==>
          if plan[j].reuse >= 0 then built[j] == oldRows[plan[j].reuse] else built[j] !in oldRows)
  }

  /** Current rows that no entry names still show what they showed. */
  ghost predicate Untouched(oldRows: seq<ServerRowViewModel>, plan: seq<Entry>, before: seq<RowState>)
    reads oldRows
  {
    |before| == |oldRows| &&
    forall i :: 0 <= i < |oldRows| && NotReused(plan, i) ==> StateOf(oldRows[i]) == before[i]
  }

  lemma StatesSnoc(built: seq<ServerRowViewModel>, vm: ServerRowViewModel)
    ensures StatesOf(built + [vm]) == StatesOf(built) + [StateOf(vm)]
  {
  }

  lemma ExpectedSnoc(plan: seq<Entry>, e: Entry, before: seq<RowState>, config: AppConfiguration)
    requires PlanFits(plan, |before|) && e.reuse < |before|
    ensures PlanFits(plan + [e], |before|)
    ensures ExpectedStates(plan + [e], before, config) == ExpectedStates(plan, before, config) + [Expected(e, before, config)]
  {
    assert forall j :: 0 <= j < |plan| ==> (plan + [e])[j] == plan[j];
  }

  /** The catalog after the constructors of the plan's new rows have remembered their servers. */
  ghost predicate CatalogState(c: AppConfiguration, count: nat, config: AppConfiguration, saves: nat, plan: seq<Entry>) {
    && c == config.(rememberedServers := RememberEach(config.rememberedServers, CreatedServers(plan)))
    && count == saves + SavesOf(config.rememberedServers, CreatedServers(plan))
  }

  ghost predicate Catalogued(catalog: ConfigurationService, config: AppConfiguration, saves: nat, plan: seq<Entry>)
    reads catalog
  {
    CatalogState(catalog.config, catalog.saveCount, config, saves, plan)
  }

  /** A reused row leaves the catalog as it is. */
  lemma CatalogKept(c: AppConfiguration, count: nat, config: AppConfiguration, saves: nat, plan: seq<Entry>, e: Entry)
    requires CatalogState(c, count, config, saves, plan) && e.reuse >= 0
    ensures CatalogState(c, count, config, saves, plan + [e])
  {
    CreatedServersSnoc(plan, e);
    var created := CreatedServers(plan);
    assert CreatedServers(plan + [e]) == created;
    assert RememberEach(config.rememberedServers, CreatedServers(plan + [e])) == RememberEach(config.rememberedServers, created);
    assert SavesOf(config.rememberedServers, CreatedServers(plan + [e])) == SavesOf(config.rememberedServers, created);
  }

  /** A new row's constructor remembers its server. */
  lemma CatalogGrown(c: AppConfiguration, count: nat, config: AppConfiguration, saves: nat, plan: seq<Entry>, e: Entry)
    requires CatalogState(c, count, config, saves, plan) && e.reuse < 0
    ensures var s := SourceServer(e.source);
      CatalogState(c.(rememberedServers := Remember(c.rememberedServers, s.processName, s.port, s.commandLine, s.workingDirectory)),
                   count + (if RememberChanges(c.rememberedServers, s.processName, s.port, s.commandLine) then 1 else 0),
                   config, saves, plan + [e])
  {
    CreatedServersSnoc(plan, e);
    RememberEachSnoc(config.rememberedServers, CreatedServers(plan), SourceServer(e.source));
  }

  /** Appending a row of the right kind keeps the shape. */
  lemma ShapedSnoc(built: seq<ServerRowViewModel>, plan: seq<Entry>, oldRows: seq<ServerRowViewModel>,
                   before: seq<RowState>, catalog: ConfigurationService, vm: ServerRowViewModel, e: Entry)
    requires Shaped(built, plan, oldRows, before, catalog)
    requires e.reuse < |oldRows| && vm.configService == catalog && vm.hasRemoveHandler
    requires if e.reuse >= 0 then vm == oldRows[e.reuse] else vm !in oldRows
    ensures Shaped(built + [vm], plan + [e], oldRows, before, catalog)
  {
    assert forall j :: 0 <= j < |plan| ==> (plan + [e])[j] == plan[j] && (built + [vm])[j] == built[j];
  }

  lemma CreatedServersSnoc(plan: seq<Entry>, e: Entry)
    ensures CreatedServers(plan + [e]) ==
      CreatedServers(plan) + (if e.reuse < 0 then [SourceServer(e.source)] else [])
  {
    assert (plan + [e])[..|plan|] == plan;
  }

  lemma RememberEachSnoc(servers: seq<RememberedServer>, created: seq<ServerProcess>, s: ServerProcess)
    ensures RememberEach(servers, created + [s]) ==
      Remember(RememberEach(servers, created), s.processName, s.port, s.commandLine, s.workingDirectory)
    ensures SavesOf(servers, created + [s]) == SavesOf(servers, created) +
      (if RememberChanges(RememberEach(servers, created), s.processName, s.port, s.commandLine) then 1 else 0)
  {
    assert (created + [s])[..|created|] == created;
  }

  /** The group a key shows depends on the groups and assignments only. */
  lemma GroupsDecideGroupName(c1: AppConfiguration, c2: AppConfiguration, b: RowState, s: ServerProcess)
    requires c1.groups == c2.groups && c1.assignments == c2.assignments
    ensures LiveRowState(b, s, c1) == LiveRowState(b, s, c2)
    ensures StoppedRowState(b, c1) == StoppedRowState(b, c2)
    ensures NewRowState(s, true, c1) == NewRowState(s, true, c2)
    ensures NewRowState(s, false, c1) == NewRowState(s, false, c2)
  {
  }

  /** A reused row for a live server: `UpdateRunningState(true, server)`, then `UpdateGroupName()`. */
  method RefreshLiveRow(vm: ServerRowViewModel, server: ServerProcess)
    modifies vm
    ensures StateOf(vm) == LiveRowState(old(StateOf(vm)), server, vm.configService.config)
  {
    vm.UpdateRunningState(true, Some(server));
    vm.UpdateGroupName();
  }

  /** A reused row for a stopped server: `UpdateRunningState(false)`, then `UpdateGroupName()`. */
  method RefreshStoppedRow(vm: ServerRowViewModel)
    modifies vm
    ensures StateOf(vm) == StoppedRowState(old(StateOf(vm)), vm.configService.config)
  {
    vm.UpdateRunningState(false, None);
    vm.UpdateGroupName();
  }

  /**
    * A new row: the constructor, then `UpdateRunningState(running, server)`.
    * The rows built so far and the current rows (ghost) are left as they were.
    */
  method CreateRow(s: ServerProcess, running: bool, catalog: ConfigurationService,
                   ghost built: seq<ServerRowViewModel>, ghost oldRows: seq<ServerRowViewModel>,
                   ghost plan: seq<Entry>, ghost before: seq<RowState>)
    returns (vm: ServerRowViewModel)
    modifies catalog
    ensures fresh(vm) && vm.configService == catalog && vm.hasRemoveHandler
    ensures vm !in oldRows && StatesOf(built) == old(StatesOf(built))
    ensures Untouched(oldRows, plan, before) == old(Untouched(oldRows, plan, before))
    ensures catalog.config == old(catalog.config).(rememberedServers :=
      Remember(old(catalog.config.rememberedServers), s.processName, s.port, s.commandLine, s.workingDirectory))
    ensures catalog.saveCount == old(catalog.saveCount) +
      (if RememberChanges(old(catalog.config.rememberedServers), s.processName, s.port, s.commandLine) then 1 else 0)
    ensures StateOf(vm) == NewRowState(s, running, old(catalog.config))
  {
    vm := new ServerRowViewModel(s, catalog, true);
    vm.UpdateRunningState(running, if running then Some(s) else None);
  }

  // ---------------------------------------------------------------------------
  // The view model

  class MainViewModel {
    /** `Servers`, the rows in display order. */
    var servers: seq<ServerRowViewModel>
    var statusText: string
    /** `_configService`. */
    const configService: ConfigurationService

    /** Every row talks to this view model's catalog and reports removal back to it. */
    ghost predicate Valid()
      reads this, servers
    {
      forall j :: 0 <= j < |servers| ==> servers[j].configService == configService && servers[j].hasRemoveHandler
    }

    /** No rows yet; the status line starts as "0 servers running". */
    constructor (catalog: ConfigurationService)
      ensures servers == [] && statusText == "0 servers running" && configService == catalog
      ensures Valid()
    {
      servers := [];
      statusText := "0 servers running";
      configService := catalog;
    }

    method UpdateStatusText()
      modifies this`statusText
      ensures statusText == StatusText(RunningCount(StatesOf(servers)), |servers|)
    {
      var runningCount := RunningCount(StatesOf(servers));
      var totalCount := |servers|;
      if totalCount == 0 {
        statusText := "No servers";
      } else if runningCount == totalCount {
        statusText := if runningCount == 1 then "1 server running" else NatToDecimal(runningCount) + " servers running";
      } else {
        statusText := NatToDecimal(runningCount) + " of " + NatToDecimal(totalCount) + " running";
      }
    }

    /** The `onRemove` callback: the row leaves the list and the status line is redone. */
    method RemoveServer(vm: ServerRowViewModel)
      requires Valid()
      modifies this`servers, this`statusText
      ensures Valid()
      ensures servers == RemoveFirst(old(servers), vm)
      ensures statusText == StatusText(RunningCount(StatesOf(servers)), |servers|)
    {
      servers := RemoveFirst(servers, vm);
      UpdateStatusText();
    }

    /** A blank name is ignored; otherwise a group with the trimmed name is saved under a fresh id. */
    method CreateNewGroup(groupName: string, freshId: string)
      modifies configService
      ensures IsBlank(groupName) ==>
        configService.config == old(configService.config) && configService.saveCount == old(configService.saveCount)
      ensures !IsBlank(groupName) ==>
        && configService.config == old(configService.config).(groups :=
             UpsertGroup(old(configService.config.groups), ServerGroup(freshId, Trim(groupName), None)))
        && configService.saveCount == old(configService.saveCount) + 1
        && Trim(groupName) != ""
        && FirstWhere(configService.config.groups, GroupHasId(freshId)) == Some(ServerGroup(freshId, Trim(groupName), None))
    {
      if IsBlank(groupName) {
        return;
      }
      var group := ServerGroup(freshId, Trim(groupName), None);
      configService.SaveGroup(group);
      BlankIffTrimEmpty(groupName);
      SavedGroupIsFound(old(configService.config.groups), group);
    }

    /**
      * `UpdateServers`. When two live servers, or two current rows, share a key
      * (ignoring case) the dictionaries throw before anything changes.
      * Otherwise the new list realizes the plan: the live servers first, each
      * in the row of its key when there is one, then every remembered server
      * with no live counterpart; reused rows keep their identity, new rows are
      * none of the current rows; the list is stably sorted by the row keys; the catalog has
      * what the new rows' constructors remembered; the status line counts the
      * live servers among all rows.
      */
    method UpdateServers(running: seq<ServerProcess>) returns (ok: bool, ghost built: seq<ServerRowViewModel>)
      requires Valid()
      modifies this, configService, servers
      ensures Valid()
      ensures ok <==> KeysDistinct(LiveKeys(running)) && KeysDistinct(KeysOf(old(StatesOf(servers))))
      ensures !ok ==>
        && servers == old(servers) && statusText == old(statusText) && StatesOf(servers) == old(StatesOf(servers))
        && configService.config == old(configService.config) && configService.saveCount == old(configService.saveCount)
      ensures ok ==>
        var before := old(StatesOf(servers));
        var plan := Plan(running, old(configService.config.rememberedServers), KeysOf(before));
        var expected := ExpectedStates(plan, before, old(configService.config));
        && Progress(built, plan, old(servers), before, old(configService.config), old(configService.saveCount))
        && servers == Permute(built, SortOrder(SortKeys(expected)))
        && StatesOf(servers) == Permute(expected, SortOrder(SortKeys(expected)))
        && statusText == StatusText(|running|, |servers|)
    {
      var oldRows := servers;
      ghost var before := StatesOf(servers);
      ghost var config := configService.config;
      ghost var saves := configService.saveCount;
      var liveKeys := LiveKeys(running);
      var existingKeys := KeysOf(StatesOf(servers));
      if !KeysDistinct(liveKeys) || !KeysDistinct(existingKeys) {
        return false, [];
      }
      built := Reconcile(running, oldRows, existingKeys, before, config, saves);
      ok := true;
    }

    /** `UpdateServers` once both dictionaries exist: rebuild the rows, sort them, redo the status line. */
    method Reconcile(running: seq<ServerProcess>, oldRows: seq<ServerRowViewModel>, existingKeys: seq<string>,
                     ghost before: seq<RowState>, ghost config: AppConfiguration, ghost saves: nat)
      returns (ghost built: seq<ServerRowViewModel>)
      requires Valid() && oldRows == servers && before == StatesOf(oldRows) && existingKeys == KeysOf(before)
      requires config == configService.config && saves == configService.saveCount
      requires KeysDistinct(LiveKeys(running)) && KeysDistinct(existingKeys)
      modifies this, configService, oldRows
      ensures Valid()
      ensures var plan := Plan(running, config.rememberedServers, existingKeys);
        var expected := ExpectedStates(plan, before, config);
        && Progress(built, plan, oldRows, before, config, saves)
        && servers == Permute(built, SortOrder(SortKeys(expected)))
        && StatesOf(servers) == Permute(expected, SortOrder(SortKeys(expected)))
        && statusText == StatusText(|running|, |servers|)
    {
      var newVms := Rebuild(running, oldRows, existingKeys, before, config, saves);
      ghost var expected := ExpectedStates(Plan(running, config.rememberedServers, existingKeys), before, config);
      PlanRunningCount(running, config.rememberedServers, existingKeys, before, config);
      ShowSorted(newVms, expected, Plan(running, config.rememberedServers, existingKeys), oldRows, before, config, saves);
      built := newVms;
    }

    /**
      * The two loops of `UpdateServers`, once both dictionaries exist: the rows
      * realize the whole plan.
      */
    method Rebuild(running: seq<ServerProcess>, oldRows: seq<ServerRowViewModel>, existingKeys: seq<string>,
                   ghost before: seq<RowState>, ghost config: AppConfiguration, ghost saves: nat)
      returns (built: seq<ServerRowViewModel>)
      requires Valid() && oldRows == servers && before == StatesOf(oldRows) && existingKeys == KeysOf(before)
      requires config == configService.config && saves == configService.saveCount
      requires KeysDistinct(LiveKeys(running)) && KeysDistinct(existingKeys)
      modifies configService, oldRows
      ensures Progress(built, Plan(running, config.rememberedServers, existingKeys), oldRows, before, config, saves)
    {
      StatesOfRows(oldRows);
      assert RowsOf(oldRows) by {
        forall i, j | 0 <= i < j < |oldRows| ensures oldRows[i] != oldRows[j] {
          assert existingKeys[i] == ServerKey(before[i].server) && existingKeys[j] == ServerKey(before[j].server);
        }
      }
      var remembered := configService.GetRememberedServers();
      assert Progress([], [], oldRows, before, config, saves);
      var live := BuildLiveRows(running, oldRows, existingKeys, before, config, saves);
      built := BuildStoppedRows(remembered, running, oldRows, existingKeys, live, before, config, saves);
    }

    /**
      * The end of `UpdateServers`: the rows are shown stably sorted by their
      * keys, and the status line counts the running ones.
      */
    method ShowSorted(rows: seq<ServerRowViewModel>, ghost states: seq<RowState>, ghost plan: seq<Entry>,
                      ghost oldRows: seq<ServerRowViewModel>, ghost before: seq<RowState>,
                      ghost config: AppConfiguration, ghost saves: nat)
      requires Progress(rows, plan, oldRows, before, config, saves)
      requires states == StatesOf(rows)
      modifies this`servers, this`statusText
      ensures Valid() && Progress(rows, plan, oldRows, before, config, saves)
      ensures servers == Permute(rows, SortOrder(SortKeys(states)))
      ensures StatesOf(servers) == Permute(states, SortOrder(SortKeys(states)))
      ensures statusText == StatusText(RunningCount(states), |rows|)
    {
      SortRows(rows, states, plan, oldRows, before, config, saves);
      SortKeepsRunningCount(states, SortKeys(states));
      ghost var shown := StatesOf(servers);
      assert RunningCount(shown) == RunningCount(states);
      UpdateStatusText();
      assert StatesOf(servers) == shown;
      assert StatesOf(rows) == states;
      assert Untouched(oldRows, plan, before);
      assert Catalogued(configService, config, saves, plan);
    }

    /** The rows in their stable sorted order. */
    method SortRows(rows: seq<ServerRowViewModel>, ghost states: seq<RowState>, ghost plan: seq<Entry>,
                    ghost oldRows: seq<ServerRowViewModel>, ghost before: seq<RowState>,
                    ghost config: AppConfiguration, ghost saves: nat)
      requires Progress(rows, plan, oldRows, before, config, saves)
      requires states == StatesOf(rows)
      modifies this`servers
      ensures Valid() && Progress(rows, plan, oldRows, before, config, saves)
      ensures servers == Permute(rows, SortOrder(SortKeys(states)))
      ensures StatesOf(servers) == Permute(states, SortOrder(SortKeys(states)))
    {
      var keys := SortKeys(StatesOf(rows));
      var order := SortOrder(keys);
      servers := Permute(rows, order);
      assert StatesOf(rows) == states;
      assert Untouched(oldRows, plan, before);
      assert Catalogued(configService, config, saves, plan);
      StatesOfPermute(rows, order);
    }

    /** The first loop of `UpdateServers`: a row for every live server, in order. */
    method BuildLiveRows(running: seq<ServerProcess>, oldRows: seq<ServerRowViewModel>, existingKeys: seq<string>,
                         ghost before: seq<RowState>, ghost config: AppConfiguration, ghost saves: nat)
      returns (built: seq<ServerRowViewModel>)
      requires Progress([], [], oldRows, before, config, saves) && RowsOf(oldRows) && |existingKeys| == |oldRows|
      requires KeysDistinct(LiveKeys(running))
      modifies configService, oldRows
      ensures Progress(built, LiveEntries(running, existingKeys), oldRows, before, config, saves)
    {
      built := [];
      ghost var plan: seq<Entry> := [];
      assert running[..0] == [];
      for i := 0 to |running|
        invariant plan == LiveEntries(running[..i], existingKeys)
        invariant Progress(built, plan, oldRows, before, config, saves)
      {
        ghost var e := Entry(Live(running[i]), KeyIndex(existingKeys, ServerKey(running[i])));
        LiveReuseUnique(running, existingKeys, i);
        LiveEntriesSnoc(running, i, existingKeys);
        var vm := AddLiveRow(running[i], oldRows, existingKeys, built, plan, before, config, saves, e);
        built := built + [vm];
        plan := plan + [e];
      }
      assert running[..|running|] == running;
    }

    /** The second loop of `UpdateServers`: a row for every remembered server that is not live, after the live rows. */
    method BuildStoppedRows(remembered: seq<RememberedServer>, running: seq<ServerProcess>,
                            oldRows: seq<ServerRowViewModel>, existingKeys: seq<string>, live: seq<ServerRowViewModel>,
                            ghost before: seq<RowState>, ghost config: AppConfiguration, ghost saves: nat)
      returns (built: seq<ServerRowViewModel>)
      requires Progress(live, LiveEntries(running, existingKeys), oldRows, before, config, saves)
      requires RowsOf(oldRows) && |existingKeys| == |oldRows|
      modifies configService, oldRows
      ensures Progress(built, Plan(running, remembered, existingKeys), oldRows, before, config, saves)
    {
      ghost var liveEntries := LiveEntries(running, existingKeys);
      var liveKeys := LiveKeys(running);
      built := live;
      ghost var plan := liveEntries;
      assert remembered[..0] == [];
      assert liveEntries + [] == liveEntries;
      for m := 0 to |remembered|
        invariant plan == liveEntries + StoppedEntries(remembered[..m], liveKeys, existingKeys)
        invariant Progress(built, plan, oldRows, before, config, saves)
      {
        var r := remembered[m];
        StoppedEntriesSnoc(liveEntries, remembered, m, liveKeys, existingKeys);
        if KeyIndex(liveKeys, RememberedKey(r)) < 0 {
          ghost var e := Entry(Stopped(r), KeyIndex(existingKeys, RememberedKey(r)));
          StoppedTailPlan(running, remembered, m, existingKeys, r, plan);
          var vm := AddStoppedRow(r, oldRows, existingKeys, built, plan, before, config, saves, e);
          built := built + [vm];
          plan := plan + [e];
        }
      }
      assert remembered[..|remembered|] == remembered;
    }

    /**
      * The rows built so far realize the plan so far against the current rows
      * `oldRows` and their states `before`, and the catalog holds what the new
      * rows' constructors remembered.
      */
    ghost predicate Progress(built: seq<ServerRowViewModel>, plan: seq<Entry>, oldRows: seq<ServerRowViewModel>,
                             before: seq<RowState>, config: AppConfiguration, saves: nat)
      reads built, oldRows, configService
    {
      && Shaped(built, plan, oldRows, before, configService)
      && StatesOf(built) == ExpectedStates(plan, before, config)
      && Untouched(oldRows, plan, before)
      && Catalogued(configService, config, saves, plan)
    }

    /** What every loop step may assume about the current rows. */
    ghost predicate RowsOf(oldRows: seq<ServerRowViewModel>) {
      && DistinctRows(oldRows)
      && (forall i :: 0 <= i < |oldRows| ==> oldRows[i].configService == configService && oldRows[i].hasRemoveHandler)
    }

    /** The first loop's body: reuse the row with the server's key, or create one. */
    method AddLiveRow(server: ServerProcess, oldRows: seq<ServerRowViewModel>, existingKeys: seq<string>,
                      built: seq<ServerRowViewModel>, ghost plan: seq<Entry>, ghost before: seq<RowState>,
                      ghost config: AppConfiguration, ghost saves: nat, ghost e: Entry)
      returns (vm: ServerRowViewModel)
      requires Progress(built, plan, oldRows, before, config, saves) && RowsOf(oldRows) && |existingKeys| == |oldRows|
      requires e == Entry(Live(server), KeyIndex(existingKeys, ServerKey(server)))
      requires e.reuse >= 0 ==> NotReused(plan, e.reuse)
      modifies configService, oldRows
      ensures Progress(built + [vm], plan + [e], oldRows, before, config, saves)
    {
      var idx := KeyIndex(existingKeys, ServerKey(server));
      if idx >= 0 {
        vm := ReuseLiveRow(server, idx, oldRows, built, plan, before, config, saves, e);
      } else {
        vm := NewRow(Live(server), oldRows, built, plan, before, config, saves, e);
      }
    }

    method ReuseLiveRow(server: ServerProcess, idx: int, oldRows: seq<ServerRowViewModel>,
                        built: seq<ServerRowViewModel>, ghost plan: seq<Entry>, ghost before: seq<RowState>,
                        ghost config: AppConfiguration, ghost saves: nat, ghost e: Entry)
      returns (vm: ServerRowViewModel)
      requires Progress(built, plan, oldRows, before, config, saves) && RowsOf(oldRows)
      requires 0 <= idx < |oldRows| && NotReused(plan, idx) && e == Entry(Live(server), idx)
      modifies oldRows[idx]
      ensures Progress(built + [vm], plan + [e], oldRows, before, config, saves)
      ensures vm == oldRows[idx]
    {
      ExpectedSnoc(plan, e, before, config);
      vm := oldRows[idx];
      assert forall j :: 0 <= j < |built| ==> built[j] != vm;
      assert StateOf(vm) == before[idx];
      CatalogKept(configService.config, configService.saveCount, config, saves, plan, e);
      RefreshLiveRow(vm, server);
      GroupsDecideGroupName(configService.config, config, before[idx], server);
      assert StatesOf(built) == old(StatesOf(built));
      StatesSnoc(built, vm);
      ShapedSnoc(built, plan, oldRows, before, configService, vm, e);
    }

    /** The second loop's body for a remembered server that is not live. */
    method AddStoppedRow(r: RememberedServer, oldRows: seq<ServerRowViewModel>, existingKeys: seq<string>,
                         built: seq<ServerRowViewModel>, ghost plan: seq<Entry>, ghost before: seq<RowState>,
                         ghost config: AppConfiguration, ghost saves: nat, ghost e: Entry)
      returns (vm: ServerRowViewModel)
      requires Progress(built, plan, oldRows, before, config, saves) && RowsOf(oldRows) && |existingKeys| == |oldRows|
      requires e == Entry(Stopped(r), KeyIndex(existingKeys, RememberedKey(r)))
      requires e.reuse >= 0 ==> OnlyStoppedReuse(plan, e.reuse)
      modifies configService, oldRows
      ensures Progress(built + [vm], plan + [e], oldRows, before, config, saves)
    {
      var idx := KeyIndex(existingKeys, RememberedKey(r));
      if idx >= 0 {
        vm := ReuseStoppedRow(r, idx, oldRows, built, plan, before, config, saves, e);
      } else {
        vm := NewRow(Stopped(r), oldRows, built, plan, before, config, saves, e);
      }
    }

    method ReuseStoppedRow(r: RememberedServer, idx: int, oldRows: seq<ServerRowViewModel>,
                           built: seq<ServerRowViewModel>, ghost plan: seq<Entry>, ghost before: seq<RowState>,
                           ghost config: AppConfiguration, ghost saves: nat, ghost e: Entry)
      returns (vm: ServerRowViewModel)
      requires Progress(built, plan, oldRows, before, config, saves) && RowsOf(oldRows)
      requires 0 <= idx < |oldRows| && e == Entry(Stopped(r), idx)
      requires OnlyStoppedReuse(plan, idx)
      modifies oldRows[idx]
      ensures Progress(built + [vm], plan + [e], oldRows, before, config, saves)
      ensures vm == oldRows[idx]
    {
      ExpectedSnoc(plan, e, before, config);
      vm := oldRows[idx];
      ghost var target := StoppedRowState(before[idx], config);
      ghost var touched := !NotReused(plan, idx);
      ghost var states := StatesOf(built);
      StatesOfRows(built);
      StoppedRowBefore(built, plan, oldRows, before, config, saves, idx);
      assert forall j :: 0 <= j < |built| && built[j] == vm ==> states[j] == target;
      CatalogKept(configService.config, configService.saveCount, config, saves, plan, e);
      RefreshStoppedRow(vm);
      GroupsDecideGroupName(configService.config, config, before[idx], Placeholder(r));
      assert StateOf(vm) == target;
      forall j | 0 <= j < |built| ensures StateOf(built[j]) == states[j] {
        if built[j] == vm {
          assert touched;
        }
      }
      StatesAre(built, states);
      StatesSnoc(built, vm);
      ShapedSnoc(built, plan, oldRows, before, configService, vm, e);
    }

    /**
      * Before a stopped server's row is refreshed: if an earlier stopped entry
      * already reused it, it shows that entry's state; otherwise it is as it
      * was and no row built so far is this one.
      */
    lemma StoppedRowBefore(built: seq<ServerRowViewModel>, plan: seq<Entry>, oldRows: seq<ServerRowViewModel>,
                           before: seq<RowState>, config: AppConfiguration, saves: nat, idx: int)
      requires Progress(built, plan, oldRows, before, config, saves) && RowsOf(oldRows)
      requires 0 <= idx < |oldRows| && OnlyStoppedReuse(plan, idx)
      ensures !NotReused(plan, idx) ==> StateOf(oldRows[idx]) == StoppedRowState(before[idx], config)
      ensures NotReused(plan, idx) ==>
        StateOf(oldRows[idx]) == before[idx] && forall j :: 0 <= j < |built| ==> built[j] != oldRows[idx]
    {
      if !NotReused(plan, idx) {
        var j :| 0 <= j < |plan| && plan[j].reuse == idx;
        StatesOfRows(built);
        ExpectedEntries(plan, before, config);
        assert StatesOf(built)[j] == StateOf(oldRows[idx]) && StatesOf(built)[j] == Expected(plan[j], before, config);
      }
    }

    /** A new row for an entry that reuses nothing. */
    method NewRow(source: Source, oldRows: seq<ServerRowViewModel>,
                  built: seq<ServerRowViewModel>, ghost plan: seq<Entry>, ghost before: seq<RowState>,
                  ghost config: AppConfiguration, ghost saves: nat, ghost e: Entry)
      returns (vm: ServerRowViewModel)
      requires Progress(built, plan, oldRows, before, config, saves) && e == Entry(source, -1)
      modifies configService
      ensures Progress(built + [vm], plan + [e], oldRows, before, config, saves)
      ensures fresh(vm)
    {
      var s := SourceServer(source);
      ghost var expected := StatesOf(built) + [NewRowState(s, source.Live?, configService.config)];
      NewRowPlanned(built, plan, oldRows, before, config, saves, e);
      vm := CreateRow(s, source.Live?, configService, built, oldRows, plan + [e], before);
      NewRowPlaced(built, plan, oldRows, before, config, saves, e, vm, expected);
    }

    /** Before the constructor runs: what the plan expects of the new row, in terms of the current catalog. */
    lemma NewRowPlanned(built: seq<ServerRowViewModel>, plan: seq<Entry>, oldRows: seq<ServerRowViewModel>,
                        before: seq<RowState>, config: AppConfiguration, saves: nat, e: Entry)
      requires Progress(built, plan, oldRows, before, config, saves) && e.reuse < 0
      ensures PlanFits(plan + [e], |before|) && Untouched(oldRows, plan + [e], before)
      ensures ExpectedStates(plan + [e], before, config) ==
        StatesOf(built) + [NewRowState(SourceServer(e.source), e.source.Live?, configService.config)]
      ensures var s := SourceServer(e.source);
        CatalogState(configService.config.(rememberedServers :=
                       Remember(configService.config.rememberedServers, s.processName, s.port, s.commandLine, s.workingDirectory)),
                     configService.saveCount +
                       (if RememberChanges(configService.config.rememberedServers, s.processName, s.port, s.commandLine) then 1 else 0),
                     config, saves, plan + [e])
    {
      ExpectedSnoc(plan, e, before, config);
      var s := SourceServer(e.source);
      CatalogGrown(configService.config, configService.saveCount, config, saves, plan, e);
      GroupsDecideGroupName(configService.config, config, RowState(s, None, false, false, false, None, None), s);
      forall i | 0 <= i < |oldRows| && NotReused(plan + [e], i) ensures NotReused(plan, i) {
        assert forall j :: 0 <= j < |plan| ==> (plan + [e])[j] == plan[j];
      }
    }

    /** After the constructor runs: the new row extends the progress. */
    lemma NewRowPlaced(built: seq<ServerRowViewModel>, plan: seq<Entry>, oldRows: seq<ServerRowViewModel>,
                       before: seq<RowState>, config: AppConfiguration, saves: nat, e: Entry, vm: ServerRowViewModel,
                       expected: seq<RowState>)
      requires Shaped(built, plan, oldRows, before, configService) && e.reuse < 0
      requires PlanFits(plan + [e], |before|) && Untouched(oldRows, plan + [e], before)
      requires ExpectedStates(plan + [e], before, config) == expected == StatesOf(built) + [StateOf(vm)]
      requires vm.configService == configService && vm.hasRemoveHandler && vm !in oldRows
      requires Catalogued(configService, config, saves, plan + [e])
      ensures Progress(built + [vm], plan + [e], oldRows, before, config, saves)
    {
      ShapedSnoc(built, plan, oldRows, before, configService, vm, e);
      StatesSnoc(built, vm);
    }
  }
}
