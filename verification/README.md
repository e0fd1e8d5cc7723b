# TravianBotSharp task logic in Dafny

TravianBotSharp drives a browser to play the browser game Travian. An
engine queues tasks per account and runs them. This project models the
decisions those tasks make and proves properties of them. Each task reads
a few observations: the page shown, database rows and the results of
browser commands. From them it chooses the next step and returns a result.

Every result is `Ok` or a failure carrying a list of errors. Most errors
are of the Retry, Skip, Stop or Cancel kind; the troop-training command
reports `MissingBuilding` and `MissingResource` instead. `KindOf`, the
kind of a failure's first error, is this model's reading of how a failure
is classified: the engine that reacts to it is not part of this model.
Intermediate layers append trace entries to a failure and never
reclassify it.

The modules follow the source files:

- `errors.dfy` (`Errors`): the result type and the tracing relations.
  - `Extends`: a failure with exactly one trace appended.
  - `PassedUp`: a failure with any number of traces appended.
- `account_task.dfy` (`AccountTasks`): the lifecycle guard that runs around every account task.
- `train_troop.dfy` (`TrainTroop`), `update_building.dfy` (`UpdateBuilding`), `update_village.dfy` (`UpdateVillages`): the per-village tasks.
- `rallypoint.dfy` (`Rallypoint`): the farm-list flow of the rally point.
- `village_settings.dfy` (`VillageSettings`): the village settings tab and its reconciliation of the task queue.
- `celebration.dfy` (`Celebration`): the status-gated command that queues a celebration.
- `collect_reward.dfy` (`CollectReward`): the loop that collects quest rewards.
- `engine.dfy` (`Engine`): the operations the core calls on the task manager, over a per-account task list and status. The manager itself is not part of this model.
- `wrappers.dfy`, `text.dfy`, `entities.dfy`: an `Option` type, string helpers (`Contains` and decimal rendering), and the shared game enumerations, XPath strings and building row.

The model treats the outside world as inputs.

- **Browser and parsers.** A browser command or a parser becomes an input value. The n-th step of a task returns `outcomes[n]`, and a parsed page is a small datatype.
- **Database.** Tables are maps, and tasks that write rows are methods on a class holding those maps.
- **Time.** Times are milliseconds since `DateTime.MinValue`, so a column left at its default is 0. The clock is a parameter `now`.
- **Traces.** A `Trace(line)` entry records the source line of the call that appended it.

## Model

| member | source | states |
|---|---|---|
| AccountTasks.PreExecuteResult | MainCore/Tasks/Base/AccountTask.cs:24-50 | Cancellation gives `Cancel.Error`. Ok exactly for an in-game page, or for a login page when the task is the login task. `Skip.AccountLogout` exactly for a login page met by another task. `Stop.NotTravianPage` exactly for a page that is neither. Never a Retry. |
| AccountTasks.IsIngame | MainCore/Tasks/Base/AccountTask.cs:60-67 | A page is in game exactly when it has an element with id "servertime". |
| AccountTasks.IsLogin | MainCore/Tasks/Base/AccountTask.cs:69-76 | A page is the login page exactly when the login-page parser finds a login button. |
| AccountTasks.PreExecuteEffects | MainCore/Tasks/Base/AccountTask.cs:26-49 | Nothing runs once cancelled. An in-game page refreshes account info and then the village list, on the account's browser. `AccountLogout` is published exactly on `Skip.AccountLogout`, and then alone. The login task on the login page, and a page that is not Travian, run nothing. |
| AccountTasks.AccountTask.Setup | MainCore/Tasks/Base/AccountTask.cs:18-22 | Sets the account and the cancellation token and leaves every other field unchanged. |
| AccountTasks.AccountTask.PreExecute | MainCore/Tasks/Base/AccountTask.cs:24-50 | Returns `PreExecuteResult`. The due time moves, by exactly 1975 ms, only on `Skip.AccountLogout`. The browser is taken only when not cancelled. The login parser is resolved only past the in-game test. |
| AccountTasks.AccountTask.PostExecute | MainCore/Tasks/Base/AccountTask.cs:52-58 | Always Ok. Refreshes account info, the village list and adventures, in that order. |
| TrainTroop.Attempted | MainCore/Tasks/TrainTroopTask.cs:34-48 | Commands are sent to every building, or up to and including the first one whose failure is a MissingResource without MissingBuilding. No earlier result ends the loop. |
| TrainTroop.Collected | MainCore/Tasks/TrainTroopTask.cs:33-42 | Only training settings are recorded, and each is switched off (value 0). |
| TrainTroop.CollectedKeys | MainCore/Tasks/TrainTroopTask.cs:16-42 | The collected settings are exactly the mapped settings of the buildings that reported MissingBuilding, each with value 0. |
| TrainTroop.NewKey | MainCore/Tasks/TrainTroopTask.cs:41 | When no building type is missing twice, `settings.Add` always adds a new key. |
| TrainTroop.AttemptedStopsAt | MainCore/Tasks/TrainTroopTask.cs:43-46 | The loop stops just after the first result that ends training. |
| TrainTroop.TrainEach | MainCore/Tasks/TrainTroopTask.cs:33-48 | The `foreach` loop returns the settings collected from the attempted buildings and how many were attempted. |
| TrainTroop.TrainTroopTask.Execute | MainCore/Tasks/TrainTroopTask.cs:27-53 | Always Ok. With no buildings nothing changes. Otherwise a command goes to each attempted building, one settings update carries the collected map, and the due time becomes now plus the repeat seconds. |
| TrainTroop.TrainTroopTask.SentCommands | MainCore/Tasks/TrainTroopTask.cs:36 | One training command per building, in order, for this account and village. |
| TrainTroop.TrainTroopTask.SetNextExecute | MainCore/Tasks/TrainTroopTask.cs:55-59 | The due time becomes now plus the configured seconds. |
| TrainTroop.TrainTroopTask.SetName | MainCore/Tasks/TrainTroopTask.cs:61-65 | The name is "Training troop in " followed by the village name. |
| UpdateBuilding.Plan | MainCore/Tasks/UpdateBuildingTask.cs:17-45 | Every navigation uses the task's `_chromeBrowser`. The plan has four steps exactly when the URL names neither village page, and three otherwise. |
| UpdateBuilding.PlanUpdatesEachPageOnce | MainCore/Tasks/UpdateBuildingTask.cs:17-45 | From any URL, a successful plan runs the building update exactly twice, once on each village page. |
| UpdateBuilding.UpdateBuildingTask.Execute | MainCore/Tasks/UpdateBuildingTask.cs:12-48 | With k the first failing step, all steps succeeding gives Ok and the whole plan. Otherwise it returns step k's failure with one trace appended, and no later step runs. |
| UpdateBuilding.UpdateBuildingTask.SetName | MainCore/Tasks/UpdateBuildingTask.cs:50-54 | The name is "Update all buildings in " followed by the village name. |
| Rallypoint.FindRallypoint | MainCore/Helper/Implementations/Base/RallypointHelper.cs:102-103 | None exactly when the village has no rally point of level > 0. Otherwise the first such row. |
| Rallypoint.ClickStartFarm | MainCore/Helper/Implementations/Base/RallypointHelper.cs:30-44 | A missing start button gives `Retry("Cannot found start button")` with no click. Otherwise exactly one click on that button, and a failing click is passed up with one trace. Ok exactly when neither fails. |
| Rallypoint.ToRallypoint | MainCore/Helper/Implementations/Base/RallypointHelper.cs:99-113 | No rally point gives `Skip("Rallypoint is missing")` with no navigation. Otherwise it goes to the first rally point, and a failure is passed up with one trace. |
| Rallypoint.EnterActions | MainCore/Helper/Implementations/Base/RallypointHelper.cs:46-60 | Always starts with the village centre, switching village. The farm list is refreshed exactly when all three steps succeed. |
| Rallypoint.EnterCause | MainCore/Helper/Implementations/Base/RallypointHelper.cs:48-55 | The failure of the first failing step, always a failure. |
| Rallypoint.EnterFarmListPage | MainCore/Helper/Implementations/Base/RallypointHelper.cs:46-60 | Ok exactly when all steps succeed. Otherwise the first failure is passed up with traces only. Its actions are `EnterActions`. |
| Rallypoint.FarmsOf | MainCore/Helper/Implementations/Base/RallypointHelper.cs:86 | Exactly the account's farm lists. |
| Rallypoint.StartFarmCause | MainCore/Helper/Implementations/Base/RallypointHelper.cs:30-44 | The cause of a farm list's start: a failure exactly when the start button is missing or its click fails. A missing button is a Retry; otherwise it is the click's own result. |
| Rallypoint.FarmClicks | MainCore/Helper/Implementations/Base/RallypointHelper.cs:87-93 | The clicks of the first n farm lists of the per-farm loop: only clicks, at most one per list. |
| Rallypoint.FarmClicksOnlyActive | MainCore/Helper/Implementations/Base/RallypointHelper.cs:87-93 | Every click made in the per-farm loop is on the start button of an active farm list. |
| Rallypoint.FirstFarmFailure | MainCore/Helper/Implementations/Base/RallypointHelper.cs:87-94 | The first active farm list whose start fails. No earlier active list fails. |
| Rallypoint.StartEachFarm | MainCore/Helper/Implementations/Base/RallypointHelper.cs:87-94 | Active lists are started in order up to the first failure, which is returned. A missing button gives the Retry as is, and a failed click is passed up with a trace. Otherwise Ok after clicking every active list. |
| Rallypoint.StartFarmList | MainCore/Helper/Implementations/Base/RallypointHelper.cs:62-97 | Farm-list settings are needed only when the entry succeeds and start-all is off. An entry failure is passed up. With start-all set: a missing button gives `Retry("Cannot found start all button")`, otherwise exactly one click, with its failure traced. Without it: the account's active lists are clicked in order up to the first failure, which is passed up. |
| UpdateVillages.IsCorrectVillage | MainCore/Tasks/Update/UpdateVillage.cs:67-79 | Returns the active flag of the first listed village with the task's id, and false when there is none. |
| UpdateVillages.Execute | MainCore/Tasks/Update/UpdateVillage.cs:35-44 | Switches village only when the listed village is not active, then runs the base update, then the selected updates. The tables end as `ApplyAll` of those updates. |
| UpdateVillages.SelectedUpdates | MainCore/Tasks/Update/UpdateVillage.cs:46-62 | Dorf1 runs exactly when the URL contains "dorf1". Dorf2 runs exactly when it contains "dorf2" but not "dorf1". The currently-building stub runs for either page. The resource update always runs, last. |
| UpdateVillages.Apply | MainCore/Tasks/Update/UpdateVillage.cs:51-62 | One update: the currently-building stub changes nothing; only the resource update writes the resource table, and it leaves the buildings alone; rows of other villages are untouched. |
| UpdateVillages.ApplyAll | MainCore/Tasks/Update/UpdateVillage.cs:46-65 | Any sequence of updates for a village leaves the rows of every other village untouched, and the resource table unchanged unless the resource update is among them. |
| UpdateVillages.VillageStore.Run | MainCore/Tasks/Update/UpdateVillage.cs:51-62 | Starting one of the selected updates leaves the tables as `Apply` of it. |
| UpdateVillages.VillageStore.Update | MainCore/Tasks/Update/UpdateVillage.cs:46-65 | Runs exactly the selected updates, in list order. The tables become their composition. |
| UpdateVillages.UpdateOutcome | MainCore/Tasks/Update/UpdateVillage.cs:46-65 | After `Update`: the village's resource row holds the stock bar; the page's buildings are upserted; the matching update times are now; other villages' update times are untouched. |
| UpdateVillages.VillageStore.UpdateResource | MainCore/Tasks/Update/UpdateVillage.cs:86-132 | The village's resource row holds the seven stock-bar values, inserted or overwritten. Only its resource time is set to now. |
| UpdateVillages.VillageStore.StampTime | MainCore/Tasks/Update/UpdateVillage.cs:117-129 | The update-time row becomes `Stamped`: created when absent, with only one column set. |
| UpdateVillages.Stamped | MainCore/Tasks/Update/UpdateVillage.cs:117-129 | The same shape at 166-178 and 209-221. Only the chosen column of the village's row becomes now. Its other columns keep their value, or 0 in a new row. Other villages' rows are untouched. |
| UpdateVillages.VillageStore.UpsertBuildings | MainCore/Tasks/Update/UpdateVillage.cs:144-165 | The loop leaves the building table equal to `Upsert` of the parsed nodes. |
| UpdateVillages.UpsertRow | MainCore/Tasks/Update/UpdateVillage.cs:150-163 | One node: a missing row is created with the village, slot, type, level and construction flag; an existing row keeps its key columns and takes the node's level, type and flag; other rows are untouched. |
| UpdateVillages.Upsert | MainCore/Tasks/Update/UpdateVillage.cs:144-165 | The parsed nodes in order: no row is dropped, every new row belongs to this village, and other villages' rows are untouched. |
| UpdateVillages.UpsertKeys | MainCore/Tasks/Update/UpdateVillage.cs:144-165 | The same loop at 187-208. After the upsert there is a row for every parsed node keyed by (village, id), and no other new row. |
| UpdateVillages.UpsertUntouched | MainCore/Tasks/Update/UpdateVillage.cs:144-165 | The same loop at 187-208. Rows whose key no parsed node names keep their value. |
| UpdateVillages.UpsertLastWins | MainCore/Tasks/Update/UpdateVillage.cs:150-163 | A slot's row holds the level, type and construction flag of the last node parsed for it. |
| UpdateVillages.VillageStore.UpdateDorf1 | MainCore/Tasks/Update/UpdateVillage.cs:139-180 | The resource fields are upserted and only the Dorf1 time is set to now. |
| UpdateVillages.VillageStore.UpdateDorf2 | MainCore/Tasks/Update/UpdateVillage.cs:182-223 | The building slots are upserted and only the Dorf2 time is set to now. |
| UpdateVillages.Name | MainCore/Tasks/Update/UpdateVillage.cs:225 | The name is "Update village " followed by a decimal rendering that parses back to the village id. |
| UpdateVillages.NameIdentifiesVillage | MainCore/Tasks/Update/UpdateVillage.cs:225 | The name "Update village {id}" determines the village: distinct villages get distinct names. |
| VillageSettings.CheckInput | WPFUI/ViewModels/Tabs/Villages/SettingsViewModel.cs:112-125 | Passes exactly when both times are numeric. The instant-complete warning takes precedence over the ads-upgrade warning. |
| VillageSettings.InstantUpgrades | WPFUI/ViewModels/Tabs/Villages/SettingsViewModel.cs:139 | Exactly the tasks of type InstantUpgrade, of any village. |
| VillageSettings.WithoutInstantUpgrades | WPFUI/ViewModels/Tabs/Villages/SettingsViewModel.cs:153-158 | No instant upgrade is left, and a task is in the result exactly when it is in the list and is not an instant upgrade. |
| VillageSettings.WithoutInstantUpgradesCounts | WPFUI/ViewModels/Tabs/Villages/SettingsViewModel.cs:153-158 | Every other task is kept as often as it was queued; no instant upgrade is kept. |
| VillageSettings.WithoutInstantUpgradesInOrder | WPFUI/ViewModels/Tabs/Villages/SettingsViewModel.cs:153-158 | The kept tasks stay in their order: the result is a subsequence of the list. |
| VillageSettings.KeepInstantUpgrades | WPFUI/ViewModels/Tabs/Villages/SettingsViewModel.cs:153-158 | Removing a snapshot that holds exactly the instant upgrades gives `WithoutInstantUpgrades`. |
| VillageSettings.WithoutKeep | WPFUI/ViewModels/Tabs/Villages/SettingsViewModel.cs:157 | Each `Remove` takes one more task out of the kept list. |
| VillageSettings.CountUnderwayPositive | WPFUI/ViewModels/Tabs/Villages/SettingsViewModel.cs:145-147 | `count > 0` exactly when some currently-building row of the village has level other than -1. |
| VillageSettings.Reconciled | WPFUI/ViewModels/Tabs/Villages/SettingsViewModel.cs:136-160 | On, the list is kept or gets one instant upgrade of this village at its end. Off, no instant upgrade is left. |
| VillageSettings.ReconciledSpec | WPFUI/ViewModels/Tabs/Villages/SettingsViewModel.cs:136-160 | Off removes every instant upgrade and keeps every other task, with its multiplicity and in its order. On, with any instant upgrade queued, changes nothing. On, with none queued, adds exactly one for this village, if and only if one of its buildings is under construction. |
| VillageSettings.WithoutInstantUpgradesIdempotent | WPFUI/ViewModels/Tabs/Villages/SettingsViewModel.cs:153-158 | Removing the instant upgrades twice is removing them once. |
| VillageSettings.ReconcileIdempotent | WPFUI/ViewModels/Tabs/Villages/SettingsViewModel.cs:136-160 | A second reconciliation with the same setting changes nothing. |
| VillageSettings.SettingsViewModel.RemoveEach | WPFUI/ViewModels/Tabs/Villages/SettingsViewModel.cs:155-158 | Removing each task of the snapshot in turn leaves the list without exactly the snapshot's tasks, in order. |
| VillageSettings.SettingsViewModel.TaskBasedSetting | WPFUI/ViewModels/Tabs/Villages/SettingsViewModel.cs:136-160 | The account's list becomes `Reconciled` and every other account is untouched. When off, the snapshot's tasks are removed one by one. |
| VillageSettings.SettingsViewModel.Save | WPFUI/ViewModels/Tabs/Villages/SettingsViewModel.cs:127-134 | The village's row takes the form's values. |
| VillageSettings.SettingsViewModel.LoadData | WPFUI/ViewModels/Tabs/Villages/SettingsViewModel.cs:33-40 | The form is refilled from the row only when the village exists. |
| VillageSettings.SettingsViewModel.SaveTask | WPFUI/ViewModels/Tabs/Villages/SettingsViewModel.cs:42-55 | A failed check shows its warning and changes nothing else. Otherwise it saves, reconciles the queue and shows "Saved.". |
| VillageSettings.SettingsViewModel.ImportTask | WPFUI/ViewModels/Tabs/Villages/SettingsViewModel.cs:57-89 | A failed check shows its warning and changes nothing. A cancelled dialog changes nothing. An unreadable file shows "Invalid file.". A parsed setting is stored, loaded into the form and reconciled with the queue. |
| Celebration.CelebrationCommandHandler.Handle | MainCore/Commands/UI/Build/CelebrationCommand.cs:38-60 | While Online: only the warning, no job and no notification. Under any other status: exactly one `CelebrationPlan` with the input's `Great` joins the village's queue, then `JobUpdated` for the account and village is published. |
| Celebration.CelebrationCommandHandler.AddJob | MainCore/Commands/UI/Build/CelebrationCommand.cs:58 | Exactly one job, the plan, is added for the village. Where `JobRepository.Add` places it is not shown; here it is appended. |
| CollectReward.SwitchTabAsWritten | MainCore/Commands/Features/Step/ClaimQuest/CollectRewardCommandHandler/TravianOfficial.cs:58-80 | The helper as written fails with a null dereference exactly when the only tab is the active one. |
| CollectReward.SwitchTabAsWrittenDereferencesMissingTab | MainCore/Commands/Features/Step/ClaimQuest/CollectRewardCommandHandler/TravianOfficial.cs:67-70 | A page whose single tab is active makes the helper dereference a tab that does not exist. |
| CollectReward.SwitchTab | MainCore/Commands/Features/Step/ClaimQuest/CollectRewardCommandHandler/TravianOfficial.cs:58-80 | Clicks the second tab when the first is active and the first tab otherwise, and only ever clicks a tab that exists. A missing tab gives `Retry.NotFound("tasks","tab")`. A click failure is passed up with one trace. |
| CollectReward.SwitchTabAgrees | MainCore/Commands/Features/Step/ClaimQuest/CollectRewardCommandHandler/TravianOfficial.cs:58-80 | Wherever the helper as written returns, the corrected one returns the same. |
| CollectReward.TurnOf | MainCore/Commands/Features/Step/ClaimQuest/CollectRewardCommandHandler/TravianOfficial.cs:36-52 | One turn that was not cancelled: it clicks the collect button, or else the other tab. It stops the loop exactly when that click fails or there is no tab to click. A failed quest click gets one trace; a failed tab click is passed up with traces; a missing tab is `Retry.NotFound("tasks","tab")` with one trace. A turn that goes on ends with the delay after its click. |
| CollectReward.FirstStop | MainCore/Commands/Features/Step/ClaimQuest/CollectRewardCommandHandler/TravianOfficial.cs:34-55 | The first turn from i on that is cancelled, fails, or reads a page with nothing claimable; no earlier turn does. |
| CollectReward.CollectEndsAtFirstStop | MainCore/Commands/Features/Step/ClaimQuest/CollectRewardCommandHandler/TravianOfficial.cs:34-55 | With k the first stopping turn, the loop runs the actions of every turn before k and ends at k: with `Cancel.Error` and no action of k, with k's failure after k's actions, or with Ok after k's actions. It is unfinished exactly when no observed turn stops it. |
| CollectReward.Collect | MainCore/Commands/Features/Step/ClaimQuest/CollectRewardCommandHandler/TravianOfficial.cs:34-55 | A cancelled turn returns `Cancel.Error` with no further action. Ok only after a turn whose own snapshot says nothing is claimable. The loop runs out of turns only while every snapshot says claimable. |
| CollectReward.CollectFailure | MainCore/Commands/Features/Step/ClaimQuest/CollectRewardCommandHandler/TravianOfficial.cs:36-76 | Every failure is the cancellation, a turn's click failure passed up with traces, or the missing-tab retry with one trace. |
| CollectReward.Handle | MainCore/Commands/Features/Step/ClaimQuest/CollectRewardCommandHandler/TravianOfficial.cs:28-56 | The do-while loop produces exactly `Collect`'s outcome and actions. |
| Errors.WithTrace | MainCore/Helper/Implementations/Base/RallypointHelper.cs:42 | `WithError(new Trace(..))` keeps every error of the failure, in order, and appends one trace. |
| Errors.ExtendsKeepsKind | MainCore/Helper/Implementations/Base/RallypointHelper.cs:41-42 | A failure with a trace appended keeps its class and all its errors. |
| Errors.PassedUpKeepsKind | MainCore/Helper/Implementations/Base/RallypointHelper.cs:62-65 | A failure passed up through several layers keeps its class and all its errors. |
| Errors.FirstFailure | MainCore/Tasks/UpdateBuildingTask.cs:17-47 | Every step before the returned position succeeded, and the step at that position failed. |

## Left out

- The task manager, its queues and its execution loop are not part of this model. `Engine.TaskManager` has only `GetList`, `Add`, `Remove` and `GetStatus`, over a per-account list and status.
- `Engine.TaskManager.Add`: the source does not show where a task is placed, so it is appended. Tasks are compared by value, not by object identity.
- Browser calls, HTML parsers, EF Core contexts and MediatR sends and publishes become input values. The commands the core only sends are recorded in order, without their internals, and their results are never inspected (`UpdateAccountInfoCommand`, `DelayClickCommand`, `UpdateFarmList`, the base `UpdateInfo.Execute`).
- `AccountTasks.AccountTask.PreExecute`: `IsIngame` and `IsLogin` each read the page anew. Here both read one snapshot.
  - The cancellation token is a field that `Setup` binds and `RequestCancellation` sets; the guard reads it once, at its start.
- `Celebration.CelebrationCommandHandler.AddJob`: `JobRepository.Add` is not part of this model; where it places the job in the village's queue is not shown, and the model appends it.
- `TrainTroop.TrainTroopTask.Execute`: the repeat time from `GetByName` and `DateTime.Now` are parameters.
  - It requires that every building reporting MissingBuilding is one of the three mapped types and that no type reports it twice. The source throws otherwise, from the indexer or from `Dictionary.Add`.
- `UpdateVillages.VillageStore.Update`: the selected updates run one after the other. The `Task.WhenAll` fan-out, and any interleaving of the parallel database contexts, is not modelled.
  - The EF `Find` calls are modelled with the (village, slot) key that the `Add` calls write.
  - Each update's page read is one snapshot.
  - `SwitchVillage` and `UpdateCurrentlyBuilding` are delay stubs that change nothing.
- `VillageSettings.IsNumeric`: the extension method is not part of this model. It is taken as a non-empty run of decimal digits.
  - The form-to-row conversion (`CopyTo`, `CopyFrom`) keeps the values as they are.
  - A village key in `stored` stands for both the village row and its settings row.
- `VillageSettings.SettingsViewModel.SaveTask`:
  - the waiting window and the background scheduler are left out;
  - it requires the settings row to exist, since `Save` dereferences it.
- `VillageSettings.SettingsViewModel.ImportTask`:
  - file dialogs, file reading and JSON parsing become the `ImportDialog` input. `ExportTask` only writes a file and is left out;
  - it requires the village to exist, since the source reads the village's name for the dialog before the dialog opens, outside the `try`.
- `Rallypoint.StartFarmList`: the account setting and each farm list's `IsActive` setting are inputs. When the entry succeeds and start-all is off, it requires a setting for every farm list of the account: the farm lists the per-farm loop reads, whose missing setting the source dereferences. Lists after the first failing one are not read by the source, yet are required here.
- `CollectReward.Handle`:
  - each turn is one observation, and the tab helper's own page read is that turn's page;
  - when the observed turns run out while the loop would go on, the outcome is `Unfinished`, because the source loop has no bound;
  - the loop uses the corrected tab helper `SwitchTab`: on a page without a collect button whose only tab is active, the source throws a null dereference, while the model returns `Retry.NotFound("tasks","tab")` with a trace (see Findings).
- The mixed revisions of the task base classes are not reconciled: each task class carries only the fields its code uses.

## Findings

| source | as written | input that shows it | evidently intended | confidence | as-written member | corrected member |
|---|---|---|---|---|---|---|
| MainCore/Commands/Features/Step/ClaimQuest/CollectRewardCommandHandler/TravianOfficial.cs:69-70 | With the first tab active, `GetTab(html, 1)` is dereferenced (`secondTab.XPath`) with no null check | a quest page with no collect button whose only tab is active | report the missing tab as `Retry.NotFound("tasks", "tab")`, as line 62 does for the first tab | not executed | CollectReward.SwitchTabAsWrittenDereferencesMissingTab | CollectReward.SwitchTab |
