# Tabflow background worker, modelled in Dafny

Tabflow is a Chrome extension. Its service worker (`background.js`) moves tabs nobody has used for a while into one collapsed tab group titled "Inactive Tabs", called the holding group below. When the user switches to a tab in that group, the worker takes the tab back out after a 10-second delay.

This project models that worker:

- **Tab table.** Per tab id, it records when the tab was last used, whether it is hidden and whether it is active. The worker seeds the table at install, startup and reset. It re-syncs the table before each grouping pass, updates it from tab events and prunes it every ten minutes.
- **Grouping pass.** A pass selects the tabs idle for longer than the configured minutes that are not active, pinned or audible. It enforces a minimum number of tabs. It then resolves the destination group: the stored group id if it is still valid, else a live group with the reserved title, else a newly created group. Finally it moves the tabs there and parks their table entries.
- **Auto checker.** It starts the countdown when 10 or more countable tabs exist. It stops the countdown when fewer than the minimum remain.
- **Release queue.** Activating a tab in the holding group queues it. A later drain ungroups the tab once its entry is 10 seconds old, provided the tab is still active and still in the holding group.
- **Resets.** Install, startup, FORCE_RESET and suspend each reset the worker's state.

How the model is built:

- The module globals are the fields of one `Background.Engine` object, and each handler is a method.
- The Chrome platform is a value, `Platform.Browser`: its tabs in query order plus its groups by id. Handlers receive it and return the updated copy.
- The current time is a parameter.
- The three platform calls of a pass that may reject are named by a `Fault` parameter.
- The id Chrome would give a new group is the parameter `freshId`.
- Messages to the popup are appended to an `events` log.

Files:

- `platform.dfy`: the browser value and the Chrome calls.
- `tab_table.dfy`: the table and its folds.
- `selection.dfy`: candidate and countable-tab selection.
- `release_queue.dfy`: the release queue.
- `background.dfy`: the engine and the properties of a pass.

JavaScript behaviour that the model keeps:

- **Falsy values.** A stored group id of 0 counts as absent. `minutes || 30`, `minGroupTabs || 5` and `lastAccessed || now` fall back to their defaults on 0.
- **Any-order iteration.** `groups.find(...)` may return any matching group. Queue keys are visited in any order; every property below holds for every order.

## Model

| member | source | states |
|---|---|---|
| Platform.FindTab | background.js:503-504 | `chrome.tabs.get(id)`: a found tab is in the snapshot and has that id; None means no tab has that id |
| Platform.FindTabAt | background.js:503-504 | with unique ids, looking up a listed tab's id finds exactly that tab |
| Platform.UngroupAddsNoMember | background.js:288-291 | `chrome.tabs.ungroup` puts no tab into a group: a group that has tabs afterwards had them before, so the remaining-tabs query sees no newcomer |
| TabTable.SeedAt | background.js:46-67 | after `initializeTabStates(held)`, every normal-window tab has an entry: a tab in group `held` is dated a year back and inactive, any other tab is dated now with its own `active` flag |
| TabTable.SeedElsewhere | background.js:46-68 | seeding leaves the entry of any id without a normal-window tab exactly as it was, or absent |
| TabTable.ResyncAt | background.js:111-123 | after the re-sync loop, each normal tab has an entry: its old entry, or one dated `lastAccessed \|\| now`; an active tab is then re-dated now and marked active |
| TabTable.ResyncElsewhere | background.js:111-123 | the re-sync leaves entries of ids without a normal tab unchanged |
| TabTable.Park | background.js:175-178 | grouped tabs become neither hidden nor active, keep their timestamps; the other entries and the key set are unchanged |
| TabTable.Prune | background.js:215-227 | cleanup keeps exactly the entries whose id is a live tab, with their values |
| Selection.NormalTabs | background.js:99-109 | a tab is kept iff it is in the snapshot and its window is normal; ids stay unique |
| Selection.InactiveTabs | background.js:125-133 | a tab is a candidate iff it is normal, has an entry, and is not active, pinned or audible, and its idle time exceeds `minutes * 60000` |
| Selection.CountableTabs | background.js:451-457 | a tab counts iff it is normal, not pinned, not audible, and ungrouped |
| Selection.CandidateIff | background.js:111-133 | both directions: after the re-sync, a tab is selected iff it is in a normal window, is not active, pinned or audible, and was last used (its old entry, else `lastAccessed \|\| now`) more than `minutes` minutes ago |
| ReleaseQueue.Enqueue | background.js:511-513 | queueing keeps an existing timestamp (the delay runs from the first activation) and adds a new id with `now` |
| ReleaseQueue.Pending | background.js:273-275 | after a drain, exactly the entries younger than 10 000 ms remain, with their timestamps |
| ReleaseQueue.Expired | background.js:272-275 | the entries a drain processes are exactly those at least 10 000 ms old; they and the entries it keeps split the queue |
| ReleaseQueue.InHoldingGroup | background.js:503-515 | a tab is queued on activation only when a tab with that id exists, sits in a group (`groupId && groupId !== -1`) and that group is titled "Inactive Tabs"; an id no tab has is never queued |
| ReleaseQueue.EligibleAtIff | background.js:277-287 | with unique ids, the lookups by id (`tabs.get`, `tabGroups.get`) agree with the listed tab's own fields: active, in a group, the group titled "Inactive Tabs" |
| ReleaseQueue.ReleaseStep | background.js:277-300 | one expired entry: the browser is untouched unless the tab is still active and in the holding group; no tab changes id and no group changes title or disappears |
| ReleaseQueue.ReleaseStepEffect | background.js:277-300 | releasing one entry ungroups exactly that tab, and only when eligible; a group changes only by being re-collapsed, only if the tab left it, and it is collapsed whenever tabs remain in it; no tab joins a group |
| ReleaseQueue.DrainStep | background.js:272-300 | releasing one more entry after earlier ones composes: the drained set grows by it, judged on the browser the earlier releases left, which agrees with the original on that tab |
| Background.Stored | background.js:233-236 | `data.inactiveGroupId \|\| null`: a missing id and the id 0 both read back as no group; any other id reads back as itself |
| Background.Validated | background.js:238-252 | `validateGroupId` returns its argument iff that is a non-zero id of a live group titled "Inactive Tabs", else null |
| Background.StorageAfterValidate | background.js:233-252 | validating the stored id either keeps storage or clears it, and clears it exactly when a stored id fails validation |
| Background.RunningAfterTick | background.js:466-472 | hysteresis: 10 or more countable tabs at or above the floor means the countdown runs; below the floor it does not; between the floor and 10 it keeps its previous state |
| Background.HysteresisExample | background.js:466-472 | 12, 9 then 4 countable tabs with the default floor 5: start, keep running, stop |
| Background.CollectNormalTabs | background.js:99-109 | the loop collects exactly `NormalTabs` of the snapshot, in order |
| Background.Engine.constructor | background.js:1-11 | the module globals take their initial values; registered alarms and the stored group id survive a worker restart, pending timeouts do not |
| Background.Engine.GetStatus | background.js:28-35 | the GET_STATUS reply carries the current state; it reports running iff it reports an end time |
| Background.Engine.ClearTimer | background.js:14-18 | the countdown alarm is gone, not running, no end time |
| Background.Engine.AutoStartTimer | background.js:194-207 | no-op while running; otherwise end time `now + minutes * 60000`, the alarm registered, the minutes recorded, TIMER_STARTED sent |
| Background.Engine.AutoStopTimer | background.js:210-213 | countdown cleared and STOPPED sent (also the STOP message, line 324-326) |
| Background.Engine.AutoCheckerTick | background.js:435-476 | the running flag afterwards is `RunningAfterTick` of the countable-tab count; end time, alarm, minutes and messages in each case, including start-then-stop when the floor exceeds 10 |
| Background.Engine.BeginGrouping | background.js:80-93 | a second pass is refused with an ERROR while one runs, and no timeout is armed; otherwise the guard is taken and a fresh 30-second safeguard armed, whose id the pass keeps |
| Background.Engine.GroupingTimedOut | background.js:87-93 | a pending safeguard fires: it is no longer pending, the guard is dropped whichever pass holds it, and the timeout is reported |
| Background.Engine.ResyncStates | background.js:111-123 | the loop leaves the table equal to `Resync` of the old table |
| Background.Engine.ParkGrouped | background.js:175-178 | the loop leaves the table equal to `Park` of the old table over the grouped ids |
| Background.Engine.ValidateGroupId | background.js:238-252 | returns `Validated`; a non-null id that fails clears the stored id; null or 0 leaves storage alone |
| Background.Engine.SelectCandidates | background.js:96-133 | table re-synced over the normal tabs; the result is exactly `InactiveTabs` of the re-synced table |
| Background.Engine.ResolveDestination | background.js:148-169 | validated stored id, else a live "Inactive Tabs" group (stored), else a new titled, collapsed group seeded with the first candidate (stored); creation rejecting leaves the browser as it was |
| Background.Engine.GroupCandidates | background.js:144-184 | the destination is resolved; every candidate moves into it and is parked, reporting GROUPING_COMPLETE with the candidate count; a rejection reports ERROR and leaves the table |
| Background.Engine.GroupIfEnough | background.js:135-184 | fewer candidates than the floor sends NOT_ENOUGH_TABS with the floor and changes nothing; otherwise the candidates are grouped as `GroupCandidates` states |
| Background.Engine.FinishGrouping | background.js:95-190 | a query failure reports ERROR; fewer candidates than `minGroupTabs \|\| 5` reports NOT_ENOUGH_TABS and groups nothing; otherwise `GroupCandidates`; the pass always clears its own safeguard (and no other pending one) and drops the guard, even one a newer pass took after this pass's safeguard fired |
| Background.Engine.GroupInactiveTabs | background.js:79-191 | busy: only the ERROR is sent and nothing else changes, the guard stays held; otherwise the full pass outcome, with the guard released and its safeguard armed then cleared |
| Background.Engine.HandleGroupNow | background.js:327-329 | the pass runs with `msg.minutes \|\| currentMinutes \|\| 30` minutes; refused with ERROR while a pass runs (lines 254-261) |
| Background.Engine.InactiveTimerFired | background.js:430-433 | a pass over `currentMinutes` (refused with ERROR, the guard and pending timeouts untouched, while another pass runs), after which the countdown is cleared |
| Background.Engine.OnActivated | background.js:487-519 | the entry is active, visible and dated now; the tab is queued (first timestamp kept) iff it sits in the holding group |
| Background.Engine.OnUpdated | background.js:521-540 | a finished load or new URL re-dates the tab (creating an entry if missing); `active === false` dequeues it |
| Background.Engine.OnRemoved | background.js:542-548 | the closed tab leaves both the table and the queue |
| Background.Engine.OnGroupRemoved | background.js:550-555 | the stored id is forgotten exactly when it names the removed group |
| Background.Engine.BeginUngroupPass | background.js:264-267 | a drain is refused while one is in flight; otherwise its guard is taken |
| Background.Engine.FinishUngroupPass | background.js:268-314 | expired entries are dropped whatever happens, younger ones kept; each expired, still-active tab in the holding group is ungrouped and no other tab changes; a group changes only by being re-collapsed after a tab left it, and such a group is collapsed whenever tabs remain; the guard is released |
| Background.Engine.ProcessUngroupQueue | background.js:264-315 | busy: nothing changes; otherwise the drain described above, on the queue, the tabs and the groups |
| Background.Engine.CleanupTabStates | background.js:215-227 | the loop leaves the table equal to `Prune` of the old one over the live tab ids |
| Background.Engine.InitializeTabStates | background.js:38-76 | the loop leaves the table equal to `Seed` of the old one |
| Background.Engine.FindHoldingGroup | background.js:337-342 | `groups.find(...)`: finds a group titled "Inactive Tabs" iff one exists |
| Background.Engine.ForceReset | background.js:330-356 | countdown cleared, both guards dropped, queue emptied, table re-seeded (not emptied first) with the live holding group, STOPPED sent |
| Background.Engine.ResetSession | background.js:366-374 | the globals shared by install and startup are reset and the alarms cleared |
| Background.Engine.OnInstalled | background.js:365-402 | reset; a live holding group is adopted and stored, else the stored id is validated; the table is seeded with it; the three periodic alarms are registered |
| Background.Engine.OnStartup | background.js:404-427 | reset; the table is seeded with no holding group; the stored id is validated afterwards; periodic alarms registered |
| Background.Engine.OnStartupSeedingHeldGroup | background.js:414-417 | startup with the validated id passed to the seeding, as install does |
| Background.Engine.OnSuspend | background.js:557-568 | countdown cleared, guards dropped, queue and table emptied |
| Background.PassKeepsOneHoldingGroup | background.js:148-169 | a pass never creates a second "Inactive Tabs" group; a resolved destination is such a live group and is the stored id |
| Background.GroupedMovesOnlyCandidates | background.js:146-172 | grouping moves a tab only when it is one of the candidates, and only into the destination |
| Background.PassMovesOnlyIdleTabs | background.js:125-172 | any tab a pass moves is moved into the destination, sits in a normal window, is not active, pinned or audible, and was idle longer than `minutes` |
| Background.CompletedPassGroupsCandidates | background.js:138-184 | a pass that reports GROUPING_COMPLETE(n) had n ≥ the floor candidates, put every one in the stored destination, and parked each entry |
| Background.StartupDatesHeldTabsNow | background.js:413-417 | startup as written: a tab in the validated holding group is seeded as just used |
| Background.StartupAgesHeldTabs | background.js:50-58 | seeded with the validated id, that tab is dated a year back and inactive |

## Left out

- popup/popup.js is not part of this model. `notifyPopup` delivery is modelled as an append to the event log; its failure is ignored, as in the source.
- Wall-clock time (`Date.now()`), alarm periods and `setTimeout` scheduling are not modelled. The time is a parameter, and alarms are a set of registered names.
- Interleaving inside a handler is not modelled. Each handler runs atomically. A grouping pass is split at its first await (BeginGrouping / FinishGrouping), and so is the drain (BeginUngroupPass / FinishUngroupPass), so the guard flags can be exercised. Each safeguard `setTimeout` is a timer id in `pendingTimeouts`. A pass that finishes after its safeguard fired is therefore modelled as the source has it: FinishGrouping clears only that pass's own timer, but it still drops the guard, even when a newer pass has taken it since.
- The `sessionReady`, `sessionStartTime`, `sessionClean` and `lastCloseTime` storage markers are left out. Nothing in the worker reads them.
- Failures of `chrome.windows.get` are folded into `windowIsNormal` being false, which skips the tab in all three places it is used (lines 48, 102 and 441).
- An undefined `groupId` is `NoGroup` (-1).
- Failures of `chrome.storage.local`, `chrome.tabGroups.query/update` and `chrome.alarms` are not modelled. The same holds for the second call of group creation (the title update) and for the tab query of the auto checker, initialization and cleanup. Only `tabs.query`, `tabs.group` (creation) and `tabs.group` (the move) may reject in a pass.
- ReleaseQueue.ReleaseStep: rejections of `chrome.tabs.ungroup` (line 288), of `chrome.tabs.query({groupId})` (line 290) and of `chrome.tabGroups.update` (line 292) are not modelled. A tab that is gone is modelled (`chrome.tabs.get` rejecting leaves the browser as it was). A rejecting ungroup would leave the browser as it was. A rejecting query or update would leave the tab ungrouped but its group not re-collapsed; the model always re-collapses. The entry is dropped in every case, as modelled.
- Chrome removing a group that becomes empty is not modelled, because `Browser.groups` keeps the group. A group id of 0 is excluded by `WellFormed`, as Chrome issues positive ids.
- A JavaScript `Map` visits keys in insertion order, but the model visits them in any order. The drain's contract holds for every order.
- Background.Engine.FinishGrouping: a pass where `tabs.group` rejects after some tabs moved is not modelled. The move is atomic: a rejected move changes no tab.

## Findings

| source | as written | input that shows it | evidently intended | confidence | as-written member | corrected member |
|---|---|---|---|---|---|---|
| background.js:413-417 | startup seeds the table before validating the stored group id, and never passes the id in | stored id 7 names a live "Inactive Tabs" group holding a normal-window tab: that tab is seeded as used now (and active if it is the selected tab), not a year back | validate first and seed with the validated id, as install does (lines 376-392) | medium, not executed | Background.StartupDatesHeldTabsNow | Background.StartupAgesHeldTabs |
