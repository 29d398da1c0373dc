# pppd session controller core, modelled in Dafny

This project models the sequential, operating-system-free core of `pppd/main.c`, the session controller of the PPP daemon, together with the realms-file parser of the RADIUS realms plugin (`pppd/plugins/radius/radrealms.c`). It then proves properties of that model. One module corresponds to each component:

| module | file | what it models |
|---|---|---|
| `Common` | common.dfy | `Option`, bytes, opaque function/argument identities, generic sequence and multiset lemmas |
| `Phases` | phases.dfy | `ppp_phase_t`, an ordered enumeration (`PHASE_DEAD` = 0 … `PHASE_MASTER` = 12) |
| `Timers` | timers.dfy | the callout list: `ppp_timeout`, `ppp_untimeout`, `calltimeout`, `timeleft` |
| `Notifiers` | notifiers.dfy | the notifier lists: `get_notifier_by_type`, `ppp_add_notify`, `ppp_del_notify`, `notify` |
| `Children` | children.dfy | the subprocess list and `n_children`: `record_child`, `forget_child`, `reap_kids`, `childwait_end`, the per-child branch of `kill_my_pg` |
| `ScriptEnv` | scriptenv.dfy | the `script_env` array: `add_script_env`, `remove_script_env`, `ppp_script_setenv`, `ppp_script_unsetenv`, `update_script_environment` |
| `Dispatch` | dispatch.dfy | the gating and dispatch decision of `get_input`; `protocol_name` with the whole `protocol_list` table |
| `Session` | session.dfy | the controller's globals, plus these routines: `new_phase`, `in_phase`, `ppp_signaled`, `handle_events`, the hangup branch of `get_input`, the retry and holdoff decision of the main loop, `ppp_send_config`/`ppp_recv_config`, `print_link_stats` |
| `RadRealms` | radrealms.dfy | `lookup_realm`: the realm taken from the user name, the `fgets` loop over the realms file, and the two `SERVER` tables |

The linked lists of the C code are each stored as a `seq` field of a class. These are the callout list, the notifier lists and the child records. Their methods run the same pointer-to-pointer scans as `while` loops and then splice the list. `script_env` is kept as an array of word slots, with the NULL terminator as `None`, the capacity `s_env_nalloc`, and a flag for "the array has been allocated". A `ghost` view `Contents` holds the entries before the terminator. The two `SERVER` tables of `lookup_realm` are a class whose `name` and `port` arrays are filled in place while `max` counts up.

Each method is proved against a specification function: `Inserted`, `Cancelled`, `DueCount`, `Calls`, `Without`, `Forget`, `Reap`, `SetSeq`, `UnsetSeq`, `UpdateAll`, `Dispatch`, `EventFlags`, `PhaseTrace` and `Scan`. The properties the source promises are proved as lemmas about those functions. They cover:
- callout order, including tie order and the microsecond carry;
- removal of exactly the first match;
- firing the maximal due prefix;
- exactly-once completion calls when every child exits;
- replace-in-place or append for the environment;
- the RFC 1661 gating order;
- the phase-change trace;
- the signal-flag semantics;
- bounded, ordered server tables.

The environment is not modelled directly; each effect of it enters as a parameter:
- The current time is a `TimeVal` argument.
- The pids `waitpid` reports are a sequence, and how its loop ended is a `WaitEnd`.
- Signals arriving during the wait are an `Arrivals` record.
- The name `if_indextoname` returns is an `Option<string>`.
- Each `malloc`/`realloc` outcome is a boolean.
- The realms file is the sequence of buffers `fgets` returns, or `None` when `fopen` fails.

Callbacks, scripts, hooks and protocol input routines are foreign to this core. They appear as the calls they would receive: `Call`, `DoneCall`, `Callout` and `Event` values, and `Action` for the dispatch outcome.

Two places where the code differs from the system's design description are modelled as the code is written:
- **Forced shutdown signals every child.** The design has the forced shutdown signal only `killable` children. `childwait_end` signals every recorded child (`Children.ChildRegistry.ChildwaitEnd`). `Children.KillableIsAllIff` proves the two differ whenever some record is not killable.
- **No holdoff after a modem hangup.** The design describes a holdoff of `holdoff` seconds after a session ends in a hangup. `get_input` clears `need_holdoff` on a modem hangup, so without a `holdoff_hook` the holdoff is 0 and the retry is immediate (`Session.HangupRetriesWithoutHoldoff`).

Two more behaviours of the code are stated as lemmas:
- **Phantom children.** `record_child` counts a child whose record could not be allocated. The counter then stays above the list length for ever (`Children.ReapKeepsGap`).
- **Lost final character.** `lookup_realm` drops the last character of every buffer, even a final line without a newline (`RadRealms.UnterminatedLineLosesLastChar`).

## Model

| member | source | states |
|---|---|---|
| Phases.PhasesUpToAuthenticate | pppd/main.c:1186 | `phase <= PHASE_AUTHENTICATE` holds exactly for Dead, Initialize, Serialconn, Dormant, Establish and Authenticate |
| Timers.Deadline | pppd/main.c:1421-1427 | the fire time is `now` plus the delay, in microseconds; the usec field is below 1000000 after the carry; it is a normalised timeval when the usec sum is non-negative; it is unchanged by the carry when no carry is needed |
| Timers.InsertionPoint | pppd/main.c:1432-1436 | the insertion scan stops at the first entry strictly later than the new time, having passed only entries that are not later |
| Timers.InsertedShape | pppd/main.c:1432-1438 | inserting adds exactly the new entry, at the insertion point; it comes after every entry that is not later, so ties keep insertion order; the entries before and after keep their order |
| Timers.InsertedBeforeLater | pppd/main.c:1432-1438 | on a sorted list, every entry after the new one is strictly later |
| Timers.InsertedSorted | pppd/main.c:1410-1439 | `ppp_timeout` keeps the callout list non-decreasing in (sec, usec) |
| Timers.Inserted | pppd/main.c:1432-1438 | the list after linking the callout in at its insertion point; specification of `Timeout`, whose properties are stated by `InsertedShape`, `InsertedBeforeLater` and `InsertedSorted` |
| Timers.MatchIndex | pppd/main.c:1453-1454 | the cancel scan stops at the first (func, arg) match, or at the end |
| Timers.CancelledProperties | pppd/main.c:1446-1459 | cancelling removes exactly the first (func, arg) match and keeps the rest in order; the list is unchanged exactly when nothing matches |
| Timers.CancelledSorted | pppd/main.c:1446-1459 | cancelling keeps the list sorted |
| Timers.Cancelled | pppd/main.c:1453-1458 | the list after unlinking the first (func, arg) entry; specification of `Untimeout`, whose properties are stated by `CancelledProperties` and `CancelledSorted` |
| Timers.DueCount | pppd/main.c:1470-1478 | the head run of entries due at `now` (time <= now), ending at the first entry not due |
| Timers.DueIsNotLater | pppd/main.c:1475-1477 | "due" is exactly "now is not earlier than the entry's time" |
| Timers.DuePrefixIsAllDue | pppd/main.c:1466-1485 | on a sorted list the head run of due entries is exactly the set of due entries; the fired prefix and the remaining suffix are both sorted |
| Timers.TimeLeft | pppd/main.c:1492-1508 | None exactly when no timer is pending; otherwise a normalised, non-negative timeval equal to head minus now, or 0 once the head is due |
| Timers.CalloutQueue.constructor | pppd/main.c:1403 | the callout list starts empty |
| Timers.CalloutQueue.Timeout | pppd/main.c:1410-1439 | the list becomes the sorted insertion of the new callout at its deadline, and stays sorted |
| Timers.CalloutQueue.Untimeout | pppd/main.c:1446-1459 | the list becomes the list with the first (func, arg) entry unlinked, and stays sorted |
| Timers.CalloutQueue.CallTimeout | pppd/main.c:1466-1485 | the entries fired are exactly the maximal due prefix, in list order; the list keeps the suffix |
| Notifiers.Calls | pppd/main.c:2154-2162 | one call per subscriber, head to tail, each with the same `val` |
| Notifiers.FirstEqual | pppd/main.c:2138-2139 | the removal scan stops at the first equal (func, arg) pair, or at the end |
| Notifiers.WithoutRemovesOneCopy | pppd/main.c:2132-2148 | removal takes away one copy of the pair exactly when it is present and keeps the others in order; otherwise the list is unchanged |
| Notifiers.Without | pppd/main.c:2138-2144 | the list after unlinking the first equal pair; specification of `DelNotify`, whose properties are stated by `WithoutRemovesOneCopy` and `AddThenDelete` |
| Notifiers.AddThenDelete | pppd/main.c:2110-2148 | deleting a pair just added restores the list; the newest subscriber is called first |
| Notifiers.Notify | pppd/main.c:2154-2162 | the calls made are `Calls(subs, val)` |
| Notifiers.NotifierRegistry.constructor | pppd/main.c:2086-2104 | every kind has an empty list, except the IPv6 kinds when IPv6CP is not compiled in |
| Notifiers.NotifierRegistry.AddNotify | pppd/main.c:2110-2125 | a known kind gets (func, arg) prepended to its list; an unknown kind changes nothing |
| Notifiers.NotifierRegistry.DelNotify | pppd/main.c:2132-2148 | a known kind loses the first equal pair from its list; an unknown kind changes nothing |
| Children.KillablePids | pppd/main.c:1527-1529 | the pids `kill_my_pg` signals are exactly those of killable records |
| Children.KillableIsAllIff | pppd/main.c:2026-2030 | the pids `childwait_end` signals are the killable ones, as a sequence and in number, exactly when every record is killable |
| Children.Pids | pppd/main.c:2026-2030 | the pids of the records, one per record, head first: what `childwait_end` signals |
| Children.DoneCalls | pppd/main.c:2056-2057 | the completion calls owed to a list of records, head first; `ReapAllExited` and `ForgetExited` state how reaping pays them |
| Children.Forget | pppd/main.c:2038-2060 | `forget_child`: unlink the first record with the pid, count it off and call its `done`; specification of `ForgetChild`, whose properties are stated by `ForgetUnrecorded`, `ForgetKeepsGap`, `ForgetCallsDone` and `ForgetExited` |
| Children.Reap | pppd/main.c:2073-2075 | `forget_child` for each reported pid in order; specification of `ReapKids`, whose properties are stated by `ReapKeepsGap` and `ReapAllExited` |
| Children.PidIndex | pppd/main.c:2042-2043 | the scan of `forget_child` stops at the first record with the pid, or at the end |
| Children.ForgetUnrecorded | pppd/main.c:2042-2048 | an unrecorded pid leaves the list and the counter alone and calls nothing |
| Children.ForgetKeepsGap | pppd/main.c:2042-2047 | `forget_child` decrements the counter exactly when it unlinks a record |
| Children.ForgetCallsDone | pppd/main.c:2056-2057 | at most one completion call: that of the first record with the pid, made exactly when it has a `done` routine |
| Children.ForgetExited | pppd/main.c:2038-2060 | forgetting a recorded pid removes one record, one count and one copy of the pid, and exactly that record's completion calls |
| Children.ReapKeepsGap | pppd/main.c:2067-2075 | reaping never changes the counter minus the list length, so a child counted without a record keeps the counter high |
| Children.ReapAllExited | pppd/main.c:2067-2075 | when every recorded child exits, in any order, the list empties, the counter drops by the number of records, and every `done` routine is called exactly once |
| Children.ChildRegistry.RecordChild | pppd/main.c:1997-2015 | the counter always goes up by one; the record is prepended only when it could be allocated; n_children stays at least the number of records |
| Children.ChildRegistry.constructor | pppd/main.c:189-225 | the static `children` list (line 225) is NULL, `n_children` (line 189) and `childwait_done` (line 151) are 0 |
| Children.ChildRegistry.ForgetChild | pppd/main.c:2038-2060 | the new registry and the calls made are `Forget` of the old one |
| Children.ChildRegistry.ReapKids | pppd/main.c:2067-2083 | with no children counted, returns 0 and changes nothing; otherwise the result is `Reap` over the reported pids, and the return is -1 exactly when the wait ended with ECHILD |
| Children.ChildRegistry.KillMyPg | pppd/main.c:1516-1531 | detached: the whole process group; otherwise the killable pids in list order |
| Children.ChildRegistry.ChildwaitEnd | pppd/main.c:2022-2032 | signals every recorded pid in list order, killable or not, and sets `childwait_done` |
| ScriptEnv.SettingDefines | pppd/main.c:2189-2194 | the string built as "NAME=VALUE" passes the NAME= match test, and the text after "NAME=" is the value |
| ScriptEnv.FindName | pppd/main.c:2193-2194 | the scan stops at the first entry defining the name, or at the terminator |
| ScriptEnv.SetProperties | pppd/main.c:2178-2232 | setting replaces the first definition at the same index or appends; afterwards the name reads back as the value |
| ScriptEnv.UnsetProperties | pppd/main.c:2239-2261 | unsetting removes only the first definition and shifts later entries down in order; it changes nothing when the name is undefined |
| ScriptEnv.UnsetAfterSet | pppd/main.c:2178-2261 | unsetting after setting gives the same entries as unsetting alone |
| ScriptEnv.UpdateStepSets | pppd/main.c:1889-1899 | a `set` option whose allocations succeed leaves the name reading as its value, as `SetSeq` does |
| ScriptEnv.Setting | pppd/main.c:2188 | the "NAME=VALUE" text slprintf builds; `SettingDefines` states that it defines the name and holds the value |
| ScriptEnv.Defines | pppd/main.c:2194 | the match test `strncmp(p, var, varl) == 0 && p[varl] == '='`; `SettingDefines` and `FindName` are stated in terms of it |
| ScriptEnv.Lookup | pppd/main.c:2188-2194 | the value a script reads for the name: the text after "NAME=" in the first defining entry; `SetProperties` states that a set name reads back as its value |
| ScriptEnv.SetSeq | pppd/main.c:2192-2223 | replace the first definition in place, else append; specification of `Setenv`, whose properties are stated by `SetProperties` and `UnsetAfterSet` |
| ScriptEnv.UnsetSeq | pppd/main.c:2245-2256 | remove the first definition; specification of `Unsetenv`, whose properties are stated by `UnsetProperties` and `UnsetAfterSet` |
| ScriptEnv.UpdateStep | pppd/main.c:1881-1902 | one userenv option, with its allocation outcomes, on (entries, capacity); specification of `ApplyUserEnv`; `UpdateStepSets` states its effect |
| ScriptEnv.UpdateAll | pppd/main.c:1880-1903 | the userenv options applied in list order; specification of `UpdateScriptEnvironment` |
| ScriptEnv.ScriptEnvTable.IndexOf | pppd/main.c:2193-2194 | returns the index of the first entry defining the name, or of the NULL terminator |
| ScriptEnv.ScriptEnvTable.constructor | pppd/main.c:183-184 | `script_env` starts NULL, with no entries |
| ScriptEnv.ScriptEnvTable.AddScriptEnv | pppd/main.c:1762-1777 | appends at the terminator, growing the capacity to pos + 17 when fewer than two words remain; a failed realloc changes nothing; the terminator and capacity > count are kept |
| ScriptEnv.ScriptEnvTable.RemoveScriptEnv | pppd/main.c:1780-1785 | the entry at `pos` is removed and later entries shift down, in the same array and capacity |
| ScriptEnv.ScriptEnvTable.ShiftDown | pppd/main.c:1783-1784 | every word after `pos`, up to and including the NULL, moves down one slot; the words before and beyond are untouched |
| ScriptEnv.ScriptEnvTable.Setenv | pppd/main.c:2178-2232 | stores exactly when every needed allocation succeeds; the entries become `SetSeq` with the key byte; the first table has 16 words; the capacity grows to count + 17 only on a full append |
| ScriptEnv.ScriptEnvTable.Unsetenv | pppd/main.c:2239-2261 | the entries become `UnsetSeq`; there is no effect without a table; the capacity is unchanged |
| ScriptEnv.ScriptEnvTable.ApplyUserEnv | pppd/main.c:1881-1902 | one option's effect on the entries and the capacity is `UpdateStep` |
| ScriptEnv.ScriptEnvTable.UpdateScriptEnvironment | pppd/main.c:1876-1904 | the options are applied in list order, as `UpdateAll` |
| Dispatch.Protocol | pppd/main.c:1170-1171 | the protocol field after address and control, big-endian, is a 16-bit value |
| Dispatch.ClearNcpBit | pppd/main.c:1203 | `& ~0x8000` clears bit 15, mapping 0x8xxx to 0x0xxx |
| Dispatch.FindHandler | pppd/main.c:1198-1208 | the table scan stops at the first entry that takes the frame exactly and enabled, or via `& ~0x8000` with a data input routine |
| Dispatch.Dispatch | pppd/main.c:1143-1217 | the decision of `get_input` on one read, in source order; its properties are stated by `ReadOutcomes`, `Gates`, `Delivery`, `NetworkFrameWaitsForNetworkPhase` and `UnregisteredProtocolRejected` |
| Dispatch.ReadOutcomes | pppd/main.c:1143-1165 | a read error means no action; length 0 means hangup, unless on the last bundle channel; 1 to 3 bytes means a short frame |
| Dispatch.Gates | pppd/main.c:1177-1193 | non-LCP frames are discarded while LCP is not opened; up to Authenticate only LCP/LQR/PAP/CHAP/EAP pass; a frame that passes both gates is delivered or rejected |
| Dispatch.Delivery | pppd/main.c:1195-1217 | an admitted frame goes to the first entry that takes it, with the 4-byte header stripped; input is preferred to data input on the same entry; with no taker, a Protocol-Reject over the whole frame, exactly when no entry matches |
| Dispatch.NetworkFrameWaitsForNetworkPhase | pppd/main.c:1186-1207 | a network-layer frame with a handler is dropped in Authenticate and delivered to that handler in Network |
| Dispatch.UnregisteredProtocolRejected | pppd/main.c:1198-1217 | with LCP opened and the phase past Authenticate, a frame whose number no entry carries, exactly or with bit 15 cleared, enabled or not, is rejected whole |
| Dispatch.NameIndex | pppd/main.c:1124-1125 | the name scan stops at the first entry with the number, or at the end |
| Dispatch.NameOf | pppd/main.c:1120-1128 | None exactly when no entry has the number; otherwise the name of the first entry with it |
| Dispatch.ProtocolName | pppd/main.c:1120-1128 | `NameOf` over `ProtocolList`, which is `protocol_list` (lines 985-1114) without its sentinel; `NameOf` states its properties |
| Session.AfterWait | pppd/main.c:684-693 | kill_link and open_ccp_flag are cleared; the arrivals are taken in only when no flag was pending; the other globals are kept |
| Session.OnHangup | pppd/main.c:698-704 | SIGHUP sets kill_link and makes the code USER_REQUEST unless it is HANGUP; the flag is cleared; nothing else changes |
| Session.OnTerminate | pppd/main.c:705-712 | SIGTERM sets kill_link and asked_to_quit, clears persist, sets USER_REQUEST and clears the flag; nothing else changes |
| Session.OnChild | pppd/main.c:713-716 | got_sigchld ends cleared and nothing else changes |
| Session.OnUsr2 | pppd/main.c:717-720 | SIGUSR2 sets open_ccp_flag; the flag ends cleared |
| Session.Arrive | pppd/main.c:1562-1654 | the flags the handlers `hup`, `term` (storing the signal number), `chld` and `open_ccp` leave; `WaitCollectsArrivals` and `InterruptReadsAsTerminate` are stated in terms of it |
| Session.EventFlags | pppd/main.c:684-720 | the four flag branches of `handle_events` after the wait, in source order; specification of `HandleEvents`, whose properties are stated by `EventFlagsClear`, `EventFlagsRequests`, `EventFlagsCode` and `EventFlagsKeep` |
| Session.Signaled | pppd/main.c:267-276 | SIGHUP, SIGTERM and SIGUSR2 each read true exactly when their got_* flag is pending, and every other signal reads false; `ArrivalsAreSignaled` ties this to the handlers |
| Session.ArrivalsAreSignaled | pppd/main.c:267-276 | after the handlers of lines 1562-1654 have run, SIGHUP, SIGTERM and SIGUSR2 read as signalled exactly when already pending or just arrived |
| Session.InterruptReadsAsTerminate | pppd/main.c:267-276 | SIGINT is stored in got_sigterm, so it reads as SIGTERM, while `ppp_signaled(SIGINT)` is false |
| Session.EventFlagsClear | pppd/main.c:684-720 | after `handle_events` no flag is pending and `ppp_signaled` is false for every signal |
| Session.EventFlagsRequests | pppd/main.c:684-720 | kill_link is set exactly when a hangup or terminate was seen; open_ccp_flag exactly when SIGUSR2 was |
| Session.EventFlagsCode | pppd/main.c:698-712 | the exit code, asked_to_quit and persist after a hangup and/or terminate, with terminate handled last |
| Session.EventFlagsKeep | pppd/main.c:684-720 | the phase, need_holdoff and hungup are untouched |
| Session.WaitCollectsArrivals | pppd/main.c:692-693 | with nothing pending, exactly the signals arriving during the wait are handled |
| Session.HoldoffTime | pppd/main.c:636-638 | the hook's answer when there is a hook; otherwise `holdoff` when needed, else 0 |
| Session.StopRetrying | pppd/main.c:631-632 | the retry loop's `break` condition `!persist \|\| asked_to_quit \|\| (maxfail > 0 && unsuccess >= maxfail)`; `TerminateWhileBlocked`, `HangupSignalRetries` and `HangupRetriesWithoutHoldoff` state when it holds |
| Session.InputEffect | pppd/main.c:1153-1156 | a modem hangup sets hungup, the code HANGUP and clears need_holdoff; `HangupRetriesWithoutHoldoff` states its consequence |
| Session.TerminateWhileBlocked | pppd/main.c:705-712 | a terminate while blocked with nothing pending: afterwards the link is killed, persist is off, the code is USER_REQUEST and the loop stops retrying |
| Session.HangupSignalRetries | pppd/main.c:631-632 | a hangup signal alone does not stop a persistent session from being retried |
| Session.HangupRetriesWithoutHoldoff | pppd/main.c:1153-1156 | a modem hangup records HANGUP and clears need_holdoff, so without a hook the holdoff is 0; a persistent session is retried; a later SIGHUP keeps the code HANGUP |
| Session.ConfigStatus | pppd/main.c:1227-1254 | -1 exactly when the channel routine exists and error_count changed, otherwise 0 |
| Session.TenthsOfMinutes | pppd/main.c:1335 | `(ct + 5) / 6` in unsigned arithmetic: the ceiling of ct / 6, or 0 when it wraps |
| Session.LinkStatsLine | pppd/main.c:1334-1336 | a line is printed exactly when the stats are due and valid; its "M.T" figures are the tenths of minutes |
| Session.NetScripts | pppd/main.c:1262-1277 | at most two events before the assignment, scripts or the rename, with the rename only second |
| Session.IfnameAfter | pppd/main.c:1264-1271 | the interface name is replaced by the looked-up one only when entering Network from a phase <= Network and the lookup succeeds |
| Session.PhaseTrace | pppd/main.c:1260-1283 | the events of `new_phase`: net scripts, hook, phasechange notifications; specification of `NewPhase`, whose properties are stated by `PhaseTraceEndsWithNotifications` and `PhaseTraceScripts` |
| Session.PhaseTraceEndsWithNotifications | pppd/main.c:1279-1282 | every `new_phase`, even to the current phase, ends by notifying each phasechange subscriber once, head first, with the new phase; the hook comes just before; nothing else is a notification |
| Session.PhaseTraceScripts | pppd/main.c:1262-1276 | the pre-up script runs, waited for and first, exactly when entering Network from a phase <= Network; the down script runs, not waited for, exactly on Disconnect |
| Session.Session.NewPhase | pppd/main.c:1260-1283 | the phase becomes `p` and the interface name follows `IfnameAfter`; the trace is `PhaseTrace` |
| Session.Session.RunNetScripts | pppd/main.c:1262-1277 | the events and the interface name before the assignment |
| Session.Session.WaitForEvents | pppd/main.c:684-695 | the globals become `AfterWait`; it waits exactly when nothing is pending, with the bound `timeleft` |
| Session.Session.Wait | pppd/main.c:692-693 | enters the wait only when no flag is set, with the signals arriving during it |
| Session.Session.ActOnSignals | pppd/main.c:698-720 | the four branches in source order; a reap happens only on SIGCHLD with children counted |
| Session.Session.ActOnHangup | pppd/main.c:698-704 | the globals become `OnHangup` |
| Session.Session.ActOnTerminate | pppd/main.c:705-712 | the globals become `OnTerminate` |
| Session.Session.ActOnChildExit | pppd/main.c:713-716 | clears got_sigchld and reaps as `Reap` when children are counted |
| Session.Session.ActOnUsr2 | pppd/main.c:717-720 | the globals become `OnUsr2` |
| Session.Session.HandleEvents | pppd/main.c:679-721 | the globals become `EventFlags`; the due prefix of the callouts is fired and the rest kept sorted; the children are reaped as `Reap` when SIGCHLD was seen |
| Session.Session.GetInput | pppd/main.c:1134-1218 | the action is `Dispatch` in the current phase; a modem hangup sets hungup, the code HANGUP and clears need_holdoff |
| Session.Session.constructor | pppd/main.c:141-177 | the globals start zero: phase Dead, code 0, every flag clear, with the given options |
| Session.Session.InPhase | pppd/main.c:1286-1289 | `phase == p`; `NewPhase` ensures `InPhase(p)` |
| Session.Session.PrintLinkStats | pppd/main.c:1329-1341 | reports `LinkStatsLine` and clears link_stats_print once a line is printed, so it prints at most once |
| RadRealms.CStr | pppd/plugins/radius/radrealms.c:84-87 | the C string of a buffer is its prefix before the first NUL |
| RadRealms.LastAt | pppd/plugins/radius/radrealms.c:60 | `strrchr(user, '@')`: the index of the last '@', None exactly when there is none |
| RadRealms.RealmOf | pppd/plugins/radius/radrealms.c:60-71 | the non-empty text after the last '@'; None (DEFAULT) exactly when there is no '@' or nothing follows it |
| RadRealms.Strtok | pppd/plugins/radius/radrealms.c:89 | NULL exactly when only delimiters remain; otherwise a non-empty token |
| RadRealms.StrtokSplits | pppd/plugins/radius/radrealms.c:89 | the text is the skipped delimiters, a delimiter-free token, at most one overwritten delimiter, and the rest |
| RadRealms.StrtokToken | pppd/plugins/radius/radrealms.c:108-130 | a leading delimiter-free token that a delimiter or the end follows is what strtok returns, and the text after that delimiter remains |
| RadRealms.AtoiDecimal | pppd/plugins/radius/radrealms.c:138 | atoi reads back the number a decimal rendering stands for |
| RadRealms.Atoi | pppd/plugins/radius/radrealms.c:138 | atoi: white space, an optional sign, the leading digits, 0 when there are none; `AtoiDecimal` states that it reads back a decimal rendering |
| RadRealms.TableOf | pppd/plugins/radius/radrealms.c:91-104 | "authserver" selects the auth table, "acctserver" the acct table (second letter 'c'); any other token is invalid |
| RadRealms.ParseServer | pppd/plugins/radius/radrealms.c:120-140 | AddressMissing exactly when no address token follows the realm; PortMissing exactly when an address but no port token does; otherwise the server is added to the table named, with a port that fits an unsigned short |
| RadRealms.ParseRealm | pppd/plugins/radius/radrealms.c:108-142 | RealmMissing exactly when no realm token follows the keyword; skipped exactly when the realm token does not match; a matching line is parsed as `ParseServer` of the rest |
| RadRealms.RealmMatches | pppd/plugins/radius/radrealms.c:117-118 | the realm token names the realm looked up, or DEFAULT when there is none; `ParseRealm` and `AddedLines` are stated in terms of it |
| RadRealms.ParseFields | pppd/plugins/radius/radrealms.c:89-142 | an addition comes from a valid keyword naming a table with room, via its realm and server fields |
| RadRealms.ParseLine | pppd/plugins/radius/radrealms.c:84-142 | a line fails with a line error, never the open error; it adds only to a table with room |
| RadRealms.IgnoredLinesSkipped | pppd/plugins/radius/radrealms.c:84-85 | lines starting with newline, '#' or NUL are skipped whatever the state |
| RadRealms.Ignored | pppd/plugins/radius/radrealms.c:84-85 | the skip test on the first character: newline, '#' or NUL; `IgnoredLinesSkipped` states its effect |
| RadRealms.LineText | pppd/plugins/radius/radrealms.c:87 | the C string without its last character; `LineTextOf` and `UnterminatedLineLosesLastChar` state what that removes |
| RadRealms.LineTextOf | pppd/plugins/radius/radrealms.c:87 | a newline-terminated line is tokenised without its newline |
| RadRealms.UnterminatedLineLosesLastChar | pppd/plugins/radius/radrealms.c:87 | a final line without a newline also loses its last character |
| RadRealms.KeywordChecks | pppd/plugins/radius/radrealms.c:91-106 | a first token that is neither keyword is an error whatever the state; a keyword line for a full table is skipped without checking the rest |
| RadRealms.KeywordHandsOn | pppd/plugins/radius/radrealms.c:89-108 | "authserver" or "acctserver" hands the rest to the realm check while the table it names has room |
| RadRealms.KeywordToken | pppd/plugins/radius/radrealms.c:89 | strtok reads the keyword as the first token and leaves the text after its blank |
| RadRealms.AddedLines | pppd/plugins/radius/radrealms.c:100-140 | an added line names its table by keyword, the table had room, and its realm token matched |
| RadRealms.ServerLineText | pppd/plugins/radius/radrealms.c:84-87 | a NUL-free `<keyword> <realm> <addr>:<port>` line is not skipped and loses only its newline |
| RadRealms.ServerLineAdds | pppd/plugins/radius/radrealms.c:84-140 | a well-formed `authserver` or `acctserver` line whose realm token matches the realm looked up, or is DEFAULT when the user name has none, adds (addr, port) to the table its keyword names while that table has room |
| RadRealms.RealmFieldParses | pppd/plugins/radius/radrealms.c:108-140 | the fields `<realm> <addr>:<port>` with a matching realm token add (addr, port) |
| RadRealms.ScanBounded | pppd/plugins/radius/radrealms.c:105-106 | neither table ever exceeds SERVER_MAX |
| RadRealms.ScanOrdered | pppd/plugins/radius/radrealms.c:128-140 | the tables only grow at their ends, in file order |
| RadRealms.FailedLineInFile | pppd/plugins/radius/radrealms.c:81-137 | an error names a line of the file, counted from 1, and is never the open error |
| RadRealms.FailedLineStops | pppd/plugins/radius/radrealms.c:91-137 | a failing buffer ends the loop at once with its error and its line number, whatever follows |
| RadRealms.MissingFieldsFail | pppd/plugins/radius/radrealms.c:108-137 | a keyword line with a missing realm token, or a matching line with a missing address or port, makes `lookup_realm` fail with that error on that line |
| RadRealms.Scan | pppd/plugins/radius/radrealms.c:81-143 | the `fgets` loop from a line on; specification of `ReadFile`, whose properties are stated by `ScanBounded`, `ScanOrdered`, `FailedLineInFile` and `FailedLineStops` |
| RadRealms.Continue | pppd/plugins/radius/radrealms.c:100-142 | the rest of a loop turn once the buffer has given its step: skip, stop with the error and line, or append to the table |
| RadRealms.LookupRealmSpec | pppd/plugins/radius/radrealms.c:44-157 | the open error on line 0 without a file, otherwise `Scan` from the realm of the user name; specification of `LookupRealm` |
| RadRealms.ServerTable.constructor | pppd/plugins/radius/radrealms.c:55-58 | a fresh table with `max` = 0 |
| RadRealms.ServerTable.Append | pppd/plugins/radius/radrealms.c:128-140 | the name and port go to index `max`, and `max` goes up by one |
| RadRealms.TakeStep | pppd/plugins/radius/radrealms.c:100-142 | one loop turn that does not fail: the tables advance as `Scan` continues |
| RadRealms.ReadFile | pppd/plugins/radius/radrealms.c:81-143 | the `fgets` loop ends as `Scan` says: the failing line and its kind, or the two lists in the tables |
| RadRealms.LookupRealm | pppd/plugins/radius/radrealms.c:44-157 | on an error (including an unopenable file) neither output is assigned; otherwise each output is assigned exactly when its list is non-empty, holding that list |

Rows for specification functions that carry no `ensures` of their own name the lemmas or methods whose contracts state their properties.

## Left out

- Timers.CalloutQueue.CallTimeout: the clock is read once for the whole call, where the source re-reads it before each entry. The fired routines are foreign, so a routine that schedules or cancels timers while it runs is not modelled.
- Timers.CalloutQueue.Timeout: the `fatal` exit on a failed `malloc` is not modelled, and neither is the clock read (`now` is a parameter).
- Notifiers.Notify: a subscriber that changes the list while `notify` walks it is not modelled; the callbacks are foreign.
- Notifiers.NotifierRegistry.AddNotify: `novm` (exit) on a failed `malloc` is not modelled. A kind outside ppp_notify_t is not modelled either, because the datatype admits none.
- Children.ChildRegistry.ForgetChild: the exit status only selects a log message, so it is not a parameter.
- Children.ChildRegistry.ReapKids: `waitpid` is an input: `exits` holds only the positive pids it reported, and the 0 or -1 that ends the loop is `end`. The error log for other errno values is not modelled.
- Children.ChildRegistry.KillMyPg: only whom it signals is modelled; `kill(0)` and the `sigaction` calls are operating-system effects.
- ScriptEnv.ScriptEnvTable.Setenv: one `tableOk` flag stands for both the first `malloc` of the table and a later `realloc`. The TDB database keys (`add_db_key`, `delete_db_key`, `update_db_entry`) are not modelled.
- ScriptEnv.ScriptEnvTable.UpdateScriptEnvironment: `free` of replaced strings and the hidden-byte pointer arithmetic are memory management and are not modelled. `update_system_environment` uses the real `setenv` and is not modelled.
- Session.Session.HandleEvents: the self-pipe, `add_fd`/`remove_fd` and `wait_input` are abstracted. The wait's bound is computed at `before`, and the timers fire at `after`. The fired callouts' own effects on the globals (for example `holdoff_end`) are foreign.
- Session.Session.GetInput: the calls to `lcp_lowerdown`, `link_terminated`, `mp_bundle_terminated`, the protocol input routines and `lcp_sprotrej` are returned as an `Action` rather than made. `dump_packet`, `snoop_recv_hook` and the debug warning that uses `protocol_name` are logging.
- Session.Session.NewPhase: `run_net_script` (fork and exec of the script) is a trace event. The interface lookup (`if_nametoindex`/`if_indextoname`) is an optional input name.
- Session.StopRetrying and Session.HoldoffTime: the main loop itself is orchestration over foreign routines and is not modelled. That covers `lcp_open`/`lcp_close`, `start_link`, `need_holdoff = 0` after a kill request, the Holdoff wait loop, demand dialling and the final child wait. Only its retry and holdoff decisions are modelled.
- The signal handlers `hup`, `term`, `chld` and `open_ccp` are represented by the flags they leave (`Arrivals`). Their `kill_my_pg` when a connector is running, their `notify(sigreceived, sig)` and the self-pipe write are asynchronous effects and are not modelled. `setup_signals`, `toggle_debug` and `bad_signal` are not modelled either.
- Session.Session.PrintLinkStats: `link_stats` byte counters and their "Sent … bytes" line are not modelled (no arithmetic on them).
- RadRealms.LookupRealm: the file is the sequence of buffers `fgets` returns. This leaves out how a line longer than 511 bytes is split across buffers, and the `fopen`/`fclose` calls themselves. `info` logging, `ppp_option_error`, `free` and `strdup` (including its failure) are not modelled either. The error outcome carries the kind and line number instead of the message text.
- RadRealms.Atoi: atoi's behaviour on overflow is undefined in C and is modelled with unbounded integers. The stored port is reduced modulo 65536, as its conversion to `unsigned short` does.
- C strings are modelled as `seq<char>`, which may contain NUL. Names, values, user names and tokens are assumed free of NUL, as every C string is; `ScriptEnv.Defines` and `RadRealms.RealmOf` do not stop at an embedded NUL. Only the buffers `fgets` returns are cut at their first NUL (`RadRealms.CStr`).
- `pppd.h` and `radiusclient.h` are not part of this model. The phase values (`PHASE_DEAD` = 0 … `PHASE_MASTER` = 12), the exit codes, `SERVER_MAX` = 8 and the `unsigned short` port type are taken from those headers as published. The signal numbers are the Linux values.
- `main()`'s startup (option parsing, daemonising, pid files, logging, crypto), `ppp_safe_fork`, `run_program`, `device_script`, `detach` and the TDB database are operating-system plumbing with no behaviour to state beyond the abstractions above.
