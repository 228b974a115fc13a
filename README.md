# WebsiteMonitor core, modelled in Dafny

WebsiteMonitor is a Windows tray tool. It finds local processes that listen on
TCP ports, shows one row per (process, port) pair, remembers servers in a
persisted catalog so that they stay listed while stopped, sorts them into
user-defined groups, and stops a server in escalating steps. This project
models the logic behind those features, with the operating system and the UI
replaced by plain inputs, and proves what that logic promises.

One Dafny module per source file:

| module | file | models |
|---|---|---|
| `Servers` | `server_process.dfy` | `ServerProcess`: its key and its `Equals`/`GetHashCode` on (process id, port) |
| `Config` | `app_configuration.dfy` | the catalog records: groups, assignments, remembered servers, the root document |
| `ConfigService` | `configuration_service.dfy` | `ConfigurationService` as a class whose catalog lists are updated in place; each update is also a function on lists with its properties |
| `PortTable` | `ip_hlp_api.dfy` | the row loop of `GetListeningPortsByPid`: 32-bit row words, the byte-swapped port, grouping by owning pid |
| `Monitor` | `process_monitor_service.dfy` | one poll: correlate processes with ports, one record per port, sort by port, replace the snapshot and raise `ServersChanged` only on change |
| `RowViewModel` | `server_row_view_model.dfy` | `ServerRowViewModel`: its flags, kept command line, group name, commands, and the command-line splitter |
| `MainView` | `main_view_model.dfy` | `MainViewModel.UpdateServers` (merge live and remembered servers, reuse rows by key, stable sort), the status line, row removal, group creation |
| `Termination` | `process_termination_service.dfy` | `TerminateProcessAsync`: close the window, then Ctrl+C, then kill the process tree, against a process whose answers are given in advance |

Three helper modules are shared by the others. `Wrappers` has `Option`.
`Text` has case folding, .NET whitespace and trimming, and decimal rendering.
`Seqs` has `RemoveAll`/`FindIndex`/`FirstOrDefault` as functions on sequences.

Modelling choices:

- **Case-insensitive comparison.** `ToLowerInvariant` and `OrdinalIgnoreCase` are both modelled by one ASCII case fold, `Text.Lower`.
- **Whitespace.** .NET's `char.IsWhiteSpace` is a fixed list of code points (`Text.IsWhiteSpace`).
- **Side effects.**
  - Each state-changing operation is a method on a class with `seq` fields.
  - Its `ensures` gives the new state as a function of the old one.
  - The properties are lemmas about those functions.
  - `Save()` is recorded as a counter (`saveCount`), so the contracts also say when the catalog would be written.
- **Asynchronous commands.**
  - `KillProcessAsync` and `StartAsync` are split at their `await` into a `Begin…` part and a `Finish…` part.
  - `Begin…` checks the guards and raises the flag. `Finish…` lowers the flag and names the callback to invoke.
- **The process being stopped is an oracle.**
  - A `Behaviour` value fixes in advance what each call on it answers.
  - The handle records the signals sent and the waits made.
  - The escalation is a specification function, `Escalation`. The method `TerminateProcess` is proved to reproduce it exactly.
- **A dead process counts as terminated.**
  - `IProcessTerminationService.cs:13` documents `false` for a process that is already gone.
  - `ProcessTerminationService.cs:20-24` and `:51-55` return `true` in that case, and the model follows the code (`Termination.GoneProcessCountsAsTerminated`).
- **The configuration record.** `ConfigurationService.cs:143,161,178` use `MonitoredProcessNames`, which `AppConfiguration.cs` does not declare. The model keeps it as a fifth list of the document.
- **The ignore list.** The row's `IgnoreProcess` calls `AddIgnoredProcessName`, which the configuration service shown here does not implement. The model returns the name that would be ignored and models the forgetting that follows.

## Model

| member | source | states |
|---|---|---|
| Servers.EqualsIsPidAndPort | src/WebsiteMonitor/Models/ServerProcess.cs:48-55 | `Equals` holds exactly when both records have the same process id and port; name, path, start time, command line and working directory are ignored; a null or foreign object is never equal |
| Servers.EqualsIsEquivalence | src/WebsiteMonitor/Models/ServerProcess.cs:52 | `Equals` is reflexive, symmetric and transitive |
| Servers.HashAgreesWithEquals | src/WebsiteMonitor/Models/ServerProcess.cs:57-60 | equal records hash alike, for any combining function |
| Servers.SeparatorIsLastColon | src/WebsiteMonitor/Models/ServerProcess.cs:46 | in a key, the colon after the folded name is the last colon, so the port part is recoverable |
| Servers.KeyIdentifiesFoldedNameAndPort | src/WebsiteMonitor/Models/ServerProcess.cs:46 | two keys are equal exactly when the names are equal ignoring case and the ports are equal |
| Servers.KeyIsFolded | src/WebsiteMonitor/Models/ServerProcess.cs:46 | a key is already lower-case, so comparing keys ignoring case is comparing them exactly |
| Servers.KeyIgnoresNameCase | src/WebsiteMonitor/Models/ServerProcess.cs:46 | records whose names differ only in letter case, on the same port, share a key |
| Servers.RestartKeepsKeyButNotEquality | src/WebsiteMonitor/Models/ServerProcess.cs:46-52 | a server restarted under a new process id keeps its key but is not `Equals` to its former record |
| Text.DecimalInjective | src/WebsiteMonitor/Models/ServerProcess.cs:46 | distinct ports render as distinct decimal strings in the key |
| Text.DecimalRoundTrip | src/WebsiteMonitor/Models/ServerProcess.cs:46 | the decimal rendering of an integer, sign included, reads back to that integer |
| Text.BlankIffTrimEmpty | src/WebsiteMonitor/Services/ConfigurationService.cs:167 | `IsNullOrWhiteSpace` holds exactly when trimming leaves nothing |
| Text.TrimStartPrefix | src/WebsiteMonitor/ViewModels/ServerRowViewModel.cs:167 | `TrimStart` removes leading whitespace and nothing else |
| Text.TrimDropsOnlyOuterWhitespace | src/WebsiteMonitor/Services/ConfigurationService.cs:169 | `Trim` returns a contiguous middle part of the text, unchanged, and everything it drops before and after it is whitespace |
| Text.Trim | src/WebsiteMonitor/Services/ConfigurationService.cs:169 | the trimmed text is no longer than the input and has no whitespace at either end |
| Text.LowerIdempotent | src/WebsiteMonitor/Models/ServerProcess.cs:46 | folding case twice is folding it once |
| Config.NewConfiguration | src/WebsiteMonitor/Models/AppConfiguration.cs:11-26 | a new document has empty groups, assignments, ignored names and remembered servers (and monitored names) |
| Config.NewRememberedServer | src/WebsiteMonitor/Models/AppConfiguration.cs:37-52 | a default remembered server has an empty name, port 0, no command line, no working directory, and key ":0" |
| Config.RememberedKeyAgreesWithServerKey | src/WebsiteMonitor/Models/AppConfiguration.cs:57 | a remembered server's key equals the live key for the same name and port, and does not depend on command line or working directory |
| ConfigService.UpsertGroup | src/WebsiteMonitor/Services/ConfigurationService.cs:45-53 | the first group with the same id is replaced and all other positions kept; with no such group the new one is appended |
| ConfigService.ConfigurationService.constructor | src/WebsiteMonitor/Services/ConfigurationService.cs:28-31 | without a configuration file the service starts from the empty catalog and has saved nothing |
| ConfigService.ConfigurationService.Save | src/WebsiteMonitor/Services/ConfigurationService.cs:105-123 | one more save request; the catalog itself is untouched |
| ConfigService.SavedGroupIsFound | src/WebsiteMonitor/Services/ConfigurationService.cs:41-56 | after `SaveGroup`, the first group with that id is the saved group; saving the same group again changes nothing |
| ConfigService.DeleteGroupLeavesNoReference | src/WebsiteMonitor/Services/ConfigurationService.cs:62-63 | after `DeleteGroup`, no group has the id and no assignment points at it; a catalog without dangling assignments stays so |
| ConfigService.Assign | src/WebsiteMonitor/Services/ConfigurationService.cs:82-90 | the new assignment is the last element |
| ConfigService.AssignLeavesExactlyOne | src/WebsiteMonitor/Services/ConfigurationService.cs:77-93 | after `AssignServerToGroup(k, g)`, exactly one assignment matches k ignoring case, it has group g, `GetAssignment(k)` returns it, and the assignments of every other key are unchanged |
| ConfigService.Unassign | src/WebsiteMonitor/Services/ConfigurationService.cs:99-100 | removing assignments never lengthens the list |
| ConfigService.UnassignRemovesKey | src/WebsiteMonitor/Services/ConfigurationService.cs:95-103 | after `RemoveServerAssignment(k)` no assignment matches k and `GetAssignment(k)` is null |
| ConfigService.UnassignKeepsOtherKeys | src/WebsiteMonitor/Services/ConfigurationService.cs:99-100 | removing the assignments of k leaves those of any key that differs from k ignoring case, and what `GetAssignment` returns for it |
| ConfigService.CaseFoldTransitive | src/WebsiteMonitor/Services/ConfigurationService.cs:73 | ignore-case equality is symmetric and transitive |
| ConfigService.LookupMatchesExactlyTheKey | src/WebsiteMonitor/Services/ConfigurationService.cs:208-213 | the lookup key `{name}:{port}` (not lower-cased) matches a remembered entry ignoring case exactly when the derived keys are equal |
| ConfigService.RememberedIndex | src/WebsiteMonitor/Services/ConfigurationService.cs:212-213 | the position of the first remembered entry matching the lookup key, or -1 exactly when none matches |
| ConfigService.Remember | src/WebsiteMonitor/Services/ConfigurationService.cs:206-240 | the list grows by at most one entry, and is unchanged whenever `RememberServer` returns without saving |
| ConfigService.RememberAppendsUnknown | src/WebsiteMonitor/Services/ConfigurationService.cs:228-237 | a server whose key is not remembered is appended with exactly the given fields |
| ConfigService.RememberNeverDowngrades | src/WebsiteMonitor/Services/ConfigurationService.cs:215-226 | only the entry with the same key changes, only by filling a missing command line with a non-empty one; a known command line is never overwritten; keys are unchanged; afterwards the server is remembered |
| ConfigService.RememberFillsMissingCommandLine | src/WebsiteMonitor/Services/ConfigurationService.cs:212-222 | when the first entry with the key has no command line and a non-empty one arrives, that entry takes the new command line and working directory and no other entry changes |
| ConfigService.RememberChangesIffChanged | src/WebsiteMonitor/Services/ConfigurationService.cs:206-240 | `RememberServer` saves exactly when the remembered list changes |
| ConfigService.RememberKeepsKeysUnique | src/WebsiteMonitor/Services/ConfigurationService.cs:206-240 | `RememberServer` never creates two entries with the same key |
| ConfigService.Forget | src/WebsiteMonitor/Services/ConfigurationService.cs:246-247 | no kept entry matches the key ignoring case, and every entry that does not match is kept |
| ConfigService.ForgetKeepsKeysUnique | src/WebsiteMonitor/Services/ConfigurationService.cs:246-247 | forgetting keeps the remembered keys distinct |
| ConfigService.NormalizeProcessName | src/WebsiteMonitor/Services/ConfigurationService.cs:169-174 | the stored name is the trimmed input, or the trimmed input minus a final ".exe" matched ignoring case |
| ConfigService.AddName | src/WebsiteMonitor/Services/ConfigurationService.cs:165-184 | blank input changes nothing; otherwise the normalized name is present afterwards, appended only when no name matched it ignoring case |
| ConfigService.AddNameIdempotent | src/WebsiteMonitor/Services/ConfigurationService.cs:178-181 | adding the same name twice is adding it once |
| ConfigService.NormalizeStripsExe | src/WebsiteMonitor/Services/ConfigurationService.cs:171-174 | a trimmed name followed by ".exe" is stored as the bare name |
| ConfigService.RemoveName | src/WebsiteMonitor/Services/ConfigurationService.cs:186-196 | blank input changes nothing; otherwise no name matching the argument ignoring case remains |
| ConfigService.RemoveNameKeepsTheRest | src/WebsiteMonitor/Services/ConfigurationService.cs:190-193 | every name that differs from the argument ignoring case stays, as often as it occurred, and the kept names keep their order |
| ConfigService.RemoveIsNotNormalized | src/WebsiteMonitor/Services/ConfigurationService.cs:169-193 | removal does not trim or strip ".exe": removing "node.exe" keeps the "node" that adding "node.exe" stored |
| ConfigService.ConfigurationService.SaveGroup | src/WebsiteMonitor/Services/ConfigurationService.cs:41-56 | the groups become `UpsertGroup` of the old groups, the other lists are unchanged, one save |
| ConfigService.ConfigurationService.DeleteGroup | src/WebsiteMonitor/Services/ConfigurationService.cs:58-66 | the groups with the id and the assignments to it are removed together, the other lists are unchanged, one save |
| ConfigService.ConfigurationService.GetAssignment | src/WebsiteMonitor/Services/ConfigurationService.cs:68-75 | the first assignment whose key matches ignoring case; null exactly when none matches |
| ConfigService.ConfigurationService.AssignServerToGroup | src/WebsiteMonitor/Services/ConfigurationService.cs:77-93 | the assignments become `Assign` of the old ones, everything else unchanged, one save |
| ConfigService.ConfigurationService.RemoveServerAssignment | src/WebsiteMonitor/Services/ConfigurationService.cs:95-103 | the assignments become `Unassign` of the old ones, everything else unchanged, one save |
| ConfigService.ConfigurationService.AddMonitoredProcessName | src/WebsiteMonitor/Services/ConfigurationService.cs:165-184 | the names become `AddName` of the old ones; blank input returns without saving, any other input saves once even when the name was present |
| ConfigService.ConfigurationService.RemoveMonitoredProcessName | src/WebsiteMonitor/Services/ConfigurationService.cs:186-196 | the names become `RemoveName` of the old ones; saves once unless the input is blank |
| ConfigService.ConfigurationService.RememberServer | src/WebsiteMonitor/Services/ConfigurationService.cs:206-240 | the remembered list becomes `Remember` of the old one, and the service saves exactly when that changes the list (an entry appended or a missing command line filled in) |
| ConfigService.ConfigurationService.ForgetServer | src/WebsiteMonitor/Services/ConfigurationService.cs:242-254 | the remembered entries and the assignments of the key are removed together; groups and names are untouched; one save |
| ConfigService.ConfigurationService.GetGroups | src/WebsiteMonitor/Services/ConfigurationService.cs:33-39 | a copy of the groups |
| ConfigService.ConfigurationService.GetRememberedServers | src/WebsiteMonitor/Services/ConfigurationService.cs:198-204 | a copy of the remembered servers |
| ConfigService.ConfigurationService.GetMonitoredProcessNames | src/WebsiteMonitor/Services/ConfigurationService.cs:157-163 | a copy of the monitored names |
| PortTable.ToInt32 | src/WebsiteMonitor/Native/IpHlpApi.cs:71 | `(int)dwOwningPid` is the signed 32-bit reading of the word: in range and congruent modulo 2^32 |
| PortTable.PortOf | src/WebsiteMonitor/Native/IpHlpApi.cs:72 | the port lies in 0..65535 and is the low 16 bits of `dwLocalPort` with their bytes swapped (little-endian host) |
| PortTable.SwapBytesInvolution | src/WebsiteMonitor/Native/IpHlpApi.cs:72 | swapping the two bytes twice gives back the value, so the conversion loses nothing |
| PortTable.GetListeningPortsByPid | src/WebsiteMonitor/Native/IpHlpApi.cs:44-90 | a failed table read gives the empty map; otherwise the keys are exactly the owning pids and each pid maps to its rows' ports in table order, duplicates kept |
| PortTable.OwnersHavePorts | src/WebsiteMonitor/Native/IpHlpApi.cs:74-79 | a pid owns a row exactly when its port list is non-empty |
| PortTable.NoRowsNoPorts | src/WebsiteMonitor/Native/IpHlpApi.cs:74-79 | a pid that owns no row has no ports |
| PortTable.DistinctPids | src/WebsiteMonitor/Native/IpHlpApi.cs:67-82 | the owning pids, each listed once |
| PortTable.TotalPortsIsRowCount | src/WebsiteMonitor/Native/IpHlpApi.cs:67-82 | the port lists hold one port per row: their lengths add up to `dwNumEntries` |
| Monitor.CollectServers | src/WebsiteMonitor/Services/ProcessMonitorService.cs:71-129 | the nested loops build exactly `Correlate` of the enumeration |
| Monitor.CorrelateConcat | src/WebsiteMonitor/Services/ProcessMonitorService.cs:73-129 | each process contributes independently: correlating a concatenation concatenates the results |
| Monitor.SkippedProcessLeavesTheRest | src/WebsiteMonitor/Services/ProcessMonitorService.cs:78-102 | an ignored process, one without ports, one whose inspection throws, or one with an empty path is skipped and nothing else changes |
| Monitor.OneRecordPerPort | src/WebsiteMonitor/Services/ProcessMonitorService.cs:105-119 | a qualifying process contributes one record per entry of its port list, in order, each with its pid, name, path, start time, command line and working directory |
| Monitor.RecordsComeFromQualifyingProcesses | src/WebsiteMonitor/Services/ProcessMonitorService.cs:69-119 | every record has a name outside the ignore list (ignoring case), a pid with ports, one of that pid's ports and a non-empty path, and comes from a qualifying process |
| Monitor.InsertByPortSorted | src/WebsiteMonitor/Services/ProcessMonitorService.cs:132 | inserting into a list sorted by port keeps it sorted |
| Monitor.InsertByPort | src/WebsiteMonitor/Services/ProcessMonitorService.cs:132 | inserting adds exactly the one record: the result is the input plus it, as a multiset |
| Monitor.SortByPort | src/WebsiteMonitor/Services/ProcessMonitorService.cs:132 | the result is sorted by port and a permutation of the input |
| Monitor.AreServerListsEqual | src/WebsiteMonitor/Services/ProcessMonitorService.cs:155-165 | true exactly when the lengths match and the records at each index have the same pid and port |
| Monitor.PairwiseSameIsEquivalence | src/WebsiteMonitor/Services/ProcessMonitorService.cs:155-165 | list comparison is reflexive, symmetric and transitive |
| Monitor.AttributeChangesGoUnnoticed | src/WebsiteMonitor/Services/ProcessMonitorService.cs:161 | lists that differ only in names, paths, start times, command lines or working directories compare equal, so no event is raised |
| Monitor.ReorderedTiesCountAsChange | src/WebsiteMonitor/Services/ProcessMonitorService.cs:132-137 | two servers on one port are sorted in either order, and the two orders compare unequal: an unstable sort can report a change |
| Monitor.PollResult | src/WebsiteMonitor/Services/ProcessMonitorService.cs:69-132 | the list one successful poll produces is sorted by port |
| Monitor.RepeatedPollIsQuiet | src/WebsiteMonitor/Services/ProcessMonitorService.cs:134-147 | two refreshes with the same poll in a row: the second keeps the snapshot the first left and raises no event |
| Monitor.ProcessMonitorService.Start | src/WebsiteMonitor/Services/ProcessMonitorService.cs:42-47 | afterwards the service is running; a running service is left as it was |
| Monitor.ProcessMonitorService.constructor | src/WebsiteMonitor/Services/ProcessMonitorService.cs:35-40 | a new service has an empty snapshot, is not running and has raised nothing |
| Monitor.ProcessMonitorService.Stop | src/WebsiteMonitor/Services/ProcessMonitorService.cs:49-53 | afterwards the service is not running |
| Monitor.ProcessMonitorService.RefreshServers | src/WebsiteMonitor/Services/ProcessMonitorService.cs:65-153 | a failed poll changes nothing; a poll equal to the snapshot changes nothing and raises nothing; otherwise the snapshot becomes the new list and exactly one event carries it |
| Monitor.ProcessMonitorService.Refresh | src/WebsiteMonitor/Services/ProcessMonitorService.cs:55-58 | the same poll as the timer's, whatever the running flag |
| Monitor.ProcessMonitorService.CurrentServers | src/WebsiteMonitor/Services/ProcessMonitorService.cs:24-33 | a copy of the snapshot |
| RowViewModel.ServerRowViewModel.ServerKey | src/WebsiteMonitor/ViewModels/ServerRowViewModel.cs:42 | the row's key is its server's key |
| RowViewModel.ServerRowViewModel.CanStart | src/WebsiteMonitor/ViewModels/ServerRowViewModel.cs:47 | a row can be started exactly when it keeps a non-empty command line |
| RowViewModel.ServerRowViewModel.constructor | src/WebsiteMonitor/ViewModels/ServerRowViewModel.cs:49-70 | keeps the server's command line and working directory, remembers the server in the catalog (saving as `RememberServer` does), and shows its group |
| RowViewModel.UnassignedShowsNoGroup | src/WebsiteMonitor/ViewModels/ServerRowViewModel.cs:74-83 | a key whose assignment was removed shows no group |
| RowViewModel.AssignedGroupIsShown | src/WebsiteMonitor/ViewModels/ServerRowViewModel.cs:74-83 | after assigning a key to a group id, the key shows the name of the first group with that id, or none |
| RowViewModel.ServerRowViewModel.UpdateGroupName | src/WebsiteMonitor/ViewModels/ServerRowViewModel.cs:72-84 | the name of the first group whose id is that of the first matching assignment; none when there is no assignment or no such group |
| RowViewModel.ServerRowViewModel.UpdateRunningState | src/WebsiteMonitor/ViewModels/ServerRowViewModel.cs:186-202 | the flag is always set; the server is replaced only by a supplied running one; the kept command line and directory only by a non-empty command line; a restartable row stays restartable |
| RowViewModel.ServerRowViewModel.BeginKill | src/WebsiteMonitor/ViewModels/ServerRowViewModel.cs:89-94 | nothing happens while terminating or when stopped; otherwise the flag is raised and the row's pid is the one to terminate |
| RowViewModel.ServerRowViewModel.FinishKill | src/WebsiteMonitor/ViewModels/ServerRowViewModel.cs:96-101 | the terminating flag is lowered and a refresh is requested |
| RowViewModel.ServerRowViewModel.BeginStart | src/WebsiteMonitor/ViewModels/ServerRowViewModel.cs:124-140 | nothing happens when running, already starting, or without a kept command line; otherwise the flag is raised and the launch is the split kept command line in the kept directory |
| RowViewModel.ServerRowViewModel.FinishStart | src/WebsiteMonitor/ViewModels/ServerRowViewModel.cs:146-152 | the starting flag is lowered on every exit; a refresh follows only a launch that did not throw |
| RowViewModel.ServerRowViewModel.Remove | src/WebsiteMonitor/ViewModels/ServerRowViewModel.cs:104-119 | the row's key is forgotten in the catalog (remembered entry and assignment), then the row asks to be removed, or for a refresh without that callback |
| RowViewModel.ServerRowViewModel.IgnoreProcess | src/WebsiteMonitor/ViewModels/ServerRowViewModel.cs:233-249 | the name to ignore is the server's process name; then the same forgetting and callback as `Remove` |
| RowViewModel.ServerRowViewModel.AssignToGroup | src/WebsiteMonitor/ViewModels/ServerRowViewModel.cs:217-223 | the key is assigned to the group, the row shows that group's name, and a refresh is requested |
| RowViewModel.ServerRowViewModel.RemoveFromGroup | src/WebsiteMonitor/ViewModels/ServerRowViewModel.cs:225-231 | the key's assignment is dropped, the row shows no group, and a refresh is requested |
| RowViewModel.ServerRowViewModel.CreateAndAssignToGroup | src/WebsiteMonitor/ViewModels/ServerRowViewModel.cs:251-257 | a group with the trimmed name is saved under the fresh id, the key is assigned to it (two saves), and the row shows the trimmed name |
| RowViewModel.IndexOf | src/WebsiteMonitor/ViewModels/ServerRowViewModel.cs:162 | the first position at or after the start holding the character, or -1 exactly when there is none |
| RowViewModel.QuoteClosed | src/WebsiteMonitor/ViewModels/ServerRowViewModel.cs:160-163 | the quoted branch is taken exactly when the trimmed text starts with a quote and another quote follows |
| RowViewModel.SplitQuoted | src/WebsiteMonitor/ViewModels/ServerRowViewModel.cs:165-169 | the executable is the text strictly between the two quotes, and the arguments are the rest without leading whitespace |
| RowViewModel.SplitAtSpace | src/WebsiteMonitor/ViewModels/ServerRowViewModel.cs:174-180 | the executable is the text before the first space (all of it when there is none) and holds no space; the arguments are the rest without leading whitespace |
| RowViewModel.ParseCommandLine | src/WebsiteMonitor/ViewModels/ServerRowViewModel.cs:155-181 | the command line is trimmed first; a closed leading quote then gives the text between the quotes and the trimmed rest, anything else the text before the first space and the trimmed rest |
| RowViewModel.SplitTrimmed | src/WebsiteMonitor/ViewModels/ServerRowViewModel.cs:160-181 | a closed leading quote gives the quoted split; anything else, including an unclosed quote, gives the split at the first space |
| RowViewModel.SpacedPartsUnique | src/WebsiteMonitor/ViewModels/ServerRowViewModel.cs:174-180 | the split at the first space is determined by the text |
| RowViewModel.QuotedCommandLineRoundTrip | src/WebsiteMonitor/ViewModels/ServerRowViewModel.cs:155-181 | a quoted executable without quotes, a space and trimmed arguments split back into the executable and the arguments |
| RowViewModel.PlainCommandLineRoundTrip | src/WebsiteMonitor/ViewModels/ServerRowViewModel.cs:155-181 | an executable without whitespace or leading quote, a space and trimmed arguments split back into the two |
| MainView.StrLessTransitive | src/WebsiteMonitor/ViewModels/MainViewModel.cs:126 | the order on group names is transitive |
| MainView.StrLessTotal | src/WebsiteMonitor/ViewModels/MainViewModel.cs:126 | any two distinct group names are ordered one way or the other |
| MainView.KeyLessIsStrictOrder | src/WebsiteMonitor/ViewModels/MainViewModel.cs:124-128 | the sort key (grouped first, group name, port) is a strict total order |
| MainView.BeforeIsStrictOrder | src/WebsiteMonitor/ViewModels/MainViewModel.cs:124-128 | ordering positions by key and then by position is irreflexive, transitive and total, so the sort has one answer |
| MainView.SortOrder | src/WebsiteMonitor/ViewModels/MainViewModel.cs:124-128 | the sorted order lists a position of the unsorted list at each place |
| MainView.SortOrderIsStableSort | src/WebsiteMonitor/ViewModels/MainViewModel.cs:124-128 | every row appears exactly once, by ascending key, and rows with equal keys keep their original order |
| MainView.GroupedFirst | src/WebsiteMonitor/ViewModels/MainViewModel.cs:125 | every row with a group name comes before every row without one |
| MainView.StatusTextRoundTrip | src/WebsiteMonitor/ViewModels/MainViewModel.cs:139-156 | the status line determines both counts: "No servers", "1 server running", "N servers running" and "R of T running" read back to (running, total) |
| MainView.KeyIndexFinds | src/WebsiteMonitor/ViewModels/MainViewModel.cs:66-94 | a lookup in a dictionary keyed ignoring case finds the first matching key, and fails exactly when none matches |
| MainView.LiveEntriesAt | src/WebsiteMonitor/ViewModels/MainViewModel.cs:64-85 | the first loop gives one entry per live server, in order, each reusing the current row with the server's key, if any |
| MainView.StoppedEntriesAt | src/WebsiteMonitor/ViewModels/MainViewModel.cs:88-121 | each entry of the second loop is a remembered server that no live server matches, reusing the current row with its key, if any |
| MainView.StoppedEntriesComplete | src/WebsiteMonitor/ViewModels/MainViewModel.cs:88-121 | every remembered server whose key no live server has gets a stopped entry |
| MainView.Placeholder | src/WebsiteMonitor/ViewModels/MainViewModel.cs:104-111 | the record of a new stopped row has the remembered server's key |
| MainView.LiveServersShown | src/WebsiteMonitor/ViewModels/MainViewModel.cs:64-85 | the first rows are the live servers in order, each showing that server and running |
| MainView.StoppedServersShown | src/WebsiteMonitor/ViewModels/MainViewModel.cs:88-121 | every later row is stopped and shows a server with its remembered entry's key |
| MainView.StoppedStateAt | src/WebsiteMonitor/ViewModels/MainViewModel.cs:94-119 | a reused stopped row keeps its server, a new one has the placeholder; either way it is stopped and has the remembered key |
| MainView.RowsShowTheirGroup | src/WebsiteMonitor/ViewModels/MainViewModel.cs:70-98 | every row shows the group assigned to its own key, whether refreshed here or looked up by the row constructor (`ServerRowViewModel.cs:69`) |
| MainView.ReusedRowsKeepFlags | src/WebsiteMonitor/ViewModels/MainViewModel.cs:66-100 | a reused row keeps its terminating and starting flags and stays restartable; a new row has both flags clear |
| MainView.LiveReuseUnique | src/WebsiteMonitor/ViewModels/MainViewModel.cs:49-71 | with distinct live keys no two live servers reuse the same row |
| MainView.StoppedReuseDisjoint | src/WebsiteMonitor/ViewModels/MainViewModel.cs:91-100 | a remembered server that is not live never reuses the row of a live one |
| MainView.PlanRunningCount | src/WebsiteMonitor/ViewModels/MainViewModel.cs:64-141 | exactly the live servers' rows are running |
| MainView.SortKeepsRunningCount | src/WebsiteMonitor/ViewModels/MainViewModel.cs:124-141 | sorting does not change how many rows are running |
| MainView.ExpectedStatesConcat | src/WebsiteMonitor/ViewModels/MainViewModel.cs:61-121 | the rows produced for two runs of entries are those of each run, in order |
| MainView.RefreshLiveRow | src/WebsiteMonitor/ViewModels/MainViewModel.cs:69-70 | a reused live row shows the live server, running, its new group, and the new command line when it has one |
| MainView.RefreshStoppedRow | src/WebsiteMonitor/ViewModels/MainViewModel.cs:97-98 | a reused stopped row keeps everything but the running flag, which is cleared, and the group name, which is recomputed |
| MainView.CreateRow | src/WebsiteMonitor/ViewModels/MainViewModel.cs:76-118 | a new row is a fresh object showing the record, its group and the running state, and its constructor remembers the record in the catalog |
| MainView.RemoveFirstAt | src/WebsiteMonitor/ViewModels/MainViewModel.cs:183 | `Remove` takes out exactly the first occurrence of the row and keeps the order of the rest |
| MainView.RemoveFirst | src/WebsiteMonitor/ViewModels/MainViewModel.cs:183 | removing an absent row changes nothing; removing a present one drops exactly one element and adds none |
| MainView.MainViewModel.constructor | src/WebsiteMonitor/ViewModels/MainViewModel.cs:20-32 | no rows, the status line "0 servers running", and the given catalog |
| MainView.MainViewModel.UpdateStatusText | src/WebsiteMonitor/ViewModels/MainViewModel.cs:139-156 | the status line of the number of running rows and the number of rows |
| MainView.MainViewModel.RemoveServer | src/WebsiteMonitor/ViewModels/MainViewModel.cs:181-185 | only the first occurrence of that row leaves the list, and the status line is redone |
| MainView.MainViewModel.CreateNewGroup | src/WebsiteMonitor/ViewModels/MainViewModel.cs:170-177 | a blank name changes and saves nothing; otherwise a group with the non-empty trimmed name is saved under the fresh id and is what a lookup by that id finds |
| MainView.MainViewModel.UpdateServers | src/WebsiteMonitor/ViewModels/MainViewModel.cs:46-137 | duplicate keys among live servers or current rows throw with nothing changed; otherwise the rows realize the merge entry by entry, reused rows are the current rows with the key and the others are new, the list is their stable sort, the catalog has what the new rows remembered, and the status line counts the live servers among all rows |
| MainView.MainViewModel.BuildLiveRows | src/WebsiteMonitor/ViewModels/MainViewModel.cs:64-85 | the first loop builds the live entries' rows |
| MainView.MainViewModel.BuildStoppedRows | src/WebsiteMonitor/ViewModels/MainViewModel.cs:88-121 | the second loop appends the stopped entries' rows |
| MainView.MainViewModel.SortRows | src/WebsiteMonitor/ViewModels/MainViewModel.cs:124-128 | the rows in their stable sorted order |
| MainView.MainViewModel.ShowSorted | src/WebsiteMonitor/ViewModels/MainViewModel.cs:124-136 | the shown rows are the sorted rows and the status line counts the live servers |
| Termination.CDiv | src/WebsiteMonitor/Services/ProcessTerminationService.cs:32 | C# integer division: the quotient truncated toward zero |
| Termination.Half | src/WebsiteMonitor/Services/ProcessTerminationService.cs:32-41 | for a non-negative timeout, two graceful waits together last at most the timeout |
| Termination.EscalationIsOrdered | src/WebsiteMonitor/Services/ProcessTerminationService.cs:26-50 | the signals are an ordered selection of close window, Ctrl+C and kill, none repeated; each wait follows the signal just sent, with half the timeout after a graceful signal and 2000 ms after the kill |
| Termination.ResultMeansGoneOrStopped | src/WebsiteMonitor/Services/ProcessTerminationService.cs:26-59 | the result is false exactly when the kill was not followed by an exit in time or an exception other than `InvalidOperationException` struck |
| Termination.UnknownProcessIsTerminated | src/WebsiteMonitor/Services/ProcessTerminationService.cs:16-24 | an id with no process gives true, with nothing sent and nothing awaited |
| Termination.GoneProcessCountsAsTerminated | src/WebsiteMonitor/Services/ProcessTerminationService.cs:20-55 | a process that is already gone counts as terminated |
| Termination.WindowCloseSuffices | src/WebsiteMonitor/Services/ProcessTerminationService.cs:29-36 | with a main window, an exit within half the timeout after closing it gives true with no Ctrl+C and no kill |
| Termination.NoWindowNoClose | src/WebsiteMonitor/Services/ProcessTerminationService.cs:29 | without a main window the window is never closed and the first signal is Ctrl+C |
| Termination.CtrlCWaitNeedsDelivery | src/WebsiteMonitor/Services/ProcessTerminationService.cs:39-45 | when Ctrl+C is not delivered, no wait follows it |
| Termination.CtrlCNoWait | src/WebsiteMonitor/Services/ProcessTerminationService.cs:39-49 | when Ctrl+C is not delivered or throws, no graceful wait follows it: at most one more wait, the one after the kill |
| Termination.CtrlCSufficesWithoutKill | src/WebsiteMonitor/Services/ProcessTerminationService.cs:39-45 | whatever was sent before, an exit within half the timeout after a delivered Ctrl+C ends step 2 with true, one more wait and no kill |
| Termination.CtrlCEndsEscalation | src/WebsiteMonitor/Services/ProcessTerminationService.cs:29-45 | Ctrl+C ends the whole escalation without a kill both when there is no window and when the process outlived the first wait after its window was closed |
| Termination.KillIsFinal | src/WebsiteMonitor/Services/ProcessTerminationService.cs:48-49 | after the kill there is exactly one more wait, of 2000 ms, and its answer is the result |
| Termination.FirstStepExceptions | src/WebsiteMonitor/Services/ProcessTerminationService.cs:51-59 | an `InvalidOperationException` gives true and any other exception false |
| Termination.WaitIsBounded | src/WebsiteMonitor/Services/ProcessTerminationService.cs:13-49 | with a non-negative timeout t, the waits add up to at most 2·(t/2) + 2000 ms |
| Termination.WaitsAtMostThree | src/WebsiteMonitor/Services/ProcessTerminationService.cs:32-49 | at most three waits; every wait but the last lasts half the timeout; with three the last follows the kill |
| Termination.WaitForExitAsync | src/WebsiteMonitor/Services/ProcessTerminationService.cs:66-76 | the wait's own answer, or `HasExited` when the wait throws; one wait is recorded |
| Termination.GetProcessById | src/WebsiteMonitor/Services/ProcessTerminationService.cs:16-24 | a fresh handle with nothing sent exactly when a process has the id |
| Termination.TerminateProcess | src/WebsiteMonitor/Services/ProcessTerminationService.cs:13-64 | the result, the signals sent and the waits made are those of `Escalation`; the handle is disposed whenever it was obtained |
| Termination.Escalate | src/WebsiteMonitor/Services/ProcessTerminationService.cs:26-59 | the window step and what follows it produce exactly `WindowStage`'s result, signals and waits |
| Termination.TryCtrlC | src/WebsiteMonitor/Services/ProcessTerminationService.cs:39-49 | the Ctrl+C step and what follows it produce exactly `CtrlCStage` |
| Termination.ForceKill | src/WebsiteMonitor/Services/ProcessTerminationService.cs:48-49 | the kill step produces exactly `KillStage` |
| Termination.ProcessHandle.Dispose | src/WebsiteMonitor/Services/ProcessTerminationService.cs:60-63 | the handle is disposed |

## Left out

- Files and persistence: `Save`/`Load`, the JSON serializer, the configuration path and the default-name seeding in `Load` are I/O. The catalog lives in memory, and `Save()` only counts requests.
- Concurrency: the `lock` blocks, the refresh `Timer`, `Dispatcher.Invoke` and the `async`/`await` scheduling are not modelled. Each operation runs atomically.
- Operating-system queries: `Process.GetProcesses`, `MainModule`, `StartTime`, the WMI command-line query, `GetExtendedTcpTable` and the `Marshal` buffer handling are inputs. A poll is given as a value, and the table as a status and a sequence of rows.
- `Kernel32.SendCtrlC`, `CloseMainWindow`, `Kill`, `WaitForExit` and `HasExited` are answers given in advance by `Termination.Behaviour`. Real timing is not modelled; a wait's timeout is only recorded.
- Launching and UI glue: `Process.Start`, `Task.Delay`, the clipboard, opening the browser, the views, the dialogs and the icon drawing are not modelled.
- `IgnoreProcess`: the ignore list it adds to has no implementation in the configuration service, so `RowViewModel.ServerRowViewModel.IgnoreProcess` returns the name instead of storing it. The monitor takes the ignore list as part of its poll input.
- MainView.MainViewModel.constructor: does not model the subscription to `ServersChanged`, the call to `Start()` or the initial `UpdateServers(CurrentServers)`. Those belong to the wiring between the services; `UpdateServers` itself is modelled in full.
- MainView.MainViewModel.UpdateServers: does not promise that the new rows are fresh objects. Only `MainView.CreateRow` states freshness; the rows are shown to be distinct from the current rows, which is what reuse by key needs.
- Aliasing of remembered entries: `RememberServer` fills an entry in place, and the model replaces it in the sequence. `UpdateServers` loops over a shallow copy (`MainViewModel.cs:59`) that shares those entries while row constructors call `RememberServer`. The sharing cannot be observed there: a fill reaches only entries whose key is live, which the second loop skips (`MainViewModel.cs:91`), and a placeholder row re-remembers its own entry with the same command line, which fills nothing.
- Monitor.SortByPort: `List.Sort` is unstable, and the model fixes one order for equal ports. Only sortedness and the permutation are promised, which is all the source guarantees.
- MainView.StrLessTotal: the culture-sensitive comparer used for group names is replaced by ordinal character order. Any strict total order would serve the proofs.
- Text.Trim: its own contract states only the length bound and the clean ends. That it returns the input's middle unchanged and drops only whitespace is the separate lemma `Text.TrimDropsOnlyOuterWhitespace`.
- Text.Lower: `ToLowerInvariant` and `OrdinalIgnoreCase` fold Unicode beyond ASCII. The model folds ASCII letters only.
- Termination.WaitIsBounded: holds only for a non-negative graceful timeout. A timeout of -1 means waiting forever in .NET, and -2 or -3 halve to -1.
- PortTable.PortOf: assumes a little-endian host, as on Windows, where `NetworkToHostOrder` swaps bytes.
- Duplicate (pid, port) rows in the port table give duplicate live keys. `UpdateServers`'s `ToDictionary` then throws, and the model returns `ok == false` with nothing changed.
