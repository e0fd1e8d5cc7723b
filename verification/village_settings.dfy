/** The village settings tab: input checking, saving and importing a
    village's settings, and bringing the account's queue of instant-upgrade
    tasks in line with the instant-complete setting. */
module VillageSettings {

  import opened Wrappers
  import opened Engine
  import opened Text

  /** The settings the tab edits. The two times are the text of their input
      boxes; the conversion between this form and the stored row
      (`CopyTo`/`CopyFrom`) keeps the values as they are in this model. */
  datatype VillageSetting = VillageSetting(isInstantComplete: bool, instantCompleteTime: string, adsUpgradeTime: string)

  /** A row of the currently-building table. */
  datatype CurrentlyBuilding = CurrentlyBuilding(villageId: VillageId, level: int)

  /** `IsNumeric`: a non-empty run of decimal digits. */
  predicate IsNumeric(s: string) {
    |s| > 0 && IsDigits(s)
  }

  datatype Check = Passed | Warning(message: string)

  /** `CheckInput`: the instant-complete time is checked first, then the
      ads upgrade time; the first non-numeric one is reported. */
  function CheckInput(s: VillageSetting): (c: Check)
    ensures c.Passed? <==> IsNumeric(s.instantCompleteTime) && IsNumeric(s.adsUpgradeTime)
    ensures !IsNumeric(s.instantCompleteTime) ==> c == Warning("Instant complete time is non-numeric.")
    ensures IsNumeric(s.instantCompleteTime) && !IsNumeric(s.adsUpgradeTime) ==> c == Warning("Ads upgrade time is non-numeric.")
  {
    if !IsNumeric(s.instantCompleteTime) then Warning("Instant complete time is non-numeric.")
    else if !IsNumeric(s.adsUpgradeTime) then Warning("Ads upgrade time is non-numeric.")
    else Passed
  }

  /** `x.GetType() == typeof(InstantUpgrade)` */
  predicate IsInstantUpgrade(t: Task) {
    t.taskType == InstantUpgrade
  }

  predicate HasInstantUpgrade(list: seq<Task>) {
    exists i :: 0 <= i < |list| && IsInstantUpgrade(list[i])
  }

  /** `new InstantUpgrade(villageId, accountId)` */
  function InstantUpgradeTask(villageId: VillageId, accountId: AccountId): Task {
    Task(InstantUpgrade, accountId, Some(villageId))
  }

  /** `list.Where(x => x.GetType() == typeof(InstantUpgrade))`, taken as a
      snapshot before any removal. */
  function InstantUpgrades(list: seq<Task>): (r: seq<Task>)
    ensures forall t :: t in r <==> t in list && IsInstantUpgrade(t)
  {
    if list == [] then []
    else (if IsInstantUpgrade(list[0]) then [list[0]] else []) + InstantUpgrades(list[1..])
  }

  /** The tasks of `list` that are not in `removed`, in their order. */
  function Keep(list: seq<Task>, removed: set<Task>): (r: seq<Task>)
    ensures forall t :: t in r <==> t in list && t !in removed
  {
    if list == [] then []
    else (if list[0] in removed then [] else [list[0]]) + Keep(list[1..], removed)
  }

  /** `r` is `list` with some of its tasks left out, the rest in their order. */
  predicate IsSubsequence(r: seq<Task>, list: seq<Task>) {
    if r == [] then true
    else if list == [] then false
    else if r[0] == list[0] then IsSubsequence(r[1..], list[1..])
    else IsSubsequence(r, list[1..])
  }

  /** The account's list with every instant-upgrade task taken out, the
      other tasks kept in order, each as often as it was there. */
  function WithoutInstantUpgrades(list: seq<Task>): (r: seq<Task>)
    ensures !HasInstantUpgrade(r)
    ensures forall t :: t in r <==> t in list && !IsInstantUpgrade(t)
  {
    if list == [] then []
    else (if IsInstantUpgrade(list[0]) then [] else [list[0]]) + WithoutInstantUpgrades(list[1..])
  }

  /** Taking the instant upgrades out keeps every other task as often as
      it was there. */
  lemma {:induction false} WithoutInstantUpgradesCounts(list: seq<Task>)
    ensures forall t :: multiset(WithoutInstantUpgrades(list))[t] == if IsInstantUpgrade(t) then 0 else multiset(list)[t]
  {
    if list != [] {
      var rest := WithoutInstantUpgrades(list[1..]);
      WithoutInstantUpgradesCounts(list[1..]);
      assert list == [list[0]] + list[1..];
      assert multiset(list) == multiset{list[0]} + multiset(list[1..]);
      if !IsInstantUpgrade(list[0]) {
        assert WithoutInstantUpgrades(list) == [list[0]] + rest;
      }
    }
  }

  /** Taking the instant upgrades out keeps the other tasks in their order. */
  lemma {:induction false} WithoutInstantUpgradesInOrder(list: seq<Task>)
    ensures IsSubsequence(WithoutInstantUpgrades(list), list)
  {
    if list != [] {
      var rest := WithoutInstantUpgrades(list[1..]);
      WithoutInstantUpgradesInOrder(list[1..]);
      if IsInstantUpgrade(list[0]) {
        assert WithoutInstantUpgrades(list) == rest;
        if rest != [] {
          assert rest[0] in rest;
          assert rest[0] != list[0];
          assert IsSubsequence(rest, list) == IsSubsequence(rest, list[1..]);
        }
      } else {
        var kept := [list[0]] + rest;
        assert WithoutInstantUpgrades(list) == kept;
        assert kept[0] == list[0] && kept[1..] == rest;
        assert IsSubsequence(kept, list) == IsSubsequence(rest, list[1..]);
      }
    }
  }

  /** Keeping everything keeps the list. */
  lemma {:induction false} KeepAll(list: seq<Task>)
    ensures Keep(list, {}) == list
  {
    if list != [] {
      KeepAll(list[1..]);
      assert list == [list[0]] + list[1..];
    }
  }

  /** Removing one more task from a kept list is keeping one task fewer. */
  lemma {:induction false} WithoutKeep(list: seq<Task>, removed: set<Task>, t: Task)
    ensures Without(Keep(list, removed), t) == Keep(list, removed + {t})
  {
    if list != [] {
      var head := list[0];
      var rest := Keep(list[1..], removed);
      WithoutKeep(list[1..], removed, t);
      if head in removed {
        assert Keep(list, removed) == rest;
        assert Keep(list, removed + {t}) == Keep(list[1..], removed + {t});
      } else {
        var kept := [head] + rest;
        assert Keep(list, removed) == kept;
        assert kept[0] == head && kept[1..] == rest;
        if head == t {
          assert Without(kept, t) == Without(rest, t);
          assert Keep(list, removed + {t}) == Keep(list[1..], removed + {t});
        } else {
          assert Without(kept, t) == [head] + Without(rest, t);
          assert Keep(list, removed + {t}) == [head] + Keep(list[1..], removed + {t});
        }
      }
    }
  }

  /** Taking out exactly the instant upgrades is `WithoutInstantUpgrades`. */
  lemma {:induction false} KeepInstantUpgrades(list: seq<Task>, removed: set<Task>)
    requires forall t :: t in list ==> (t in removed <==> IsInstantUpgrade(t))
    ensures Keep(list, removed) == WithoutInstantUpgrades(list)
  {
    if list != [] {
      assert forall t :: t in list[1..] ==> t in list;
      KeepInstantUpgrades(list[1..], removed);
    }
  }

  /** The number of the village's currently-building rows whose level is
      not -1. */
  function CountUnderway(current: seq<CurrentlyBuilding>, villageId: VillageId): nat {
    if current == [] then 0
    else (if current[0].villageId == villageId && current[0].level != -1 then 1 else 0) + CountUnderway(current[1..], villageId)
  }

  /** `count > 0` exactly when some row of the village has a level other than -1. */
  lemma {:induction false} CountUnderwayPositive(current: seq<CurrentlyBuilding>, villageId: VillageId)
    ensures CountUnderway(current, villageId) > 0 <==>
            exists i :: 0 <= i < |current| && current[i].villageId == villageId && current[i].level != -1
  {
    if current != [] {
      CountUnderwayPositive(current[1..], villageId);
      if CountUnderway(current[1..], villageId) > 0 {
        var i :| 0 <= i < |current[1..]| && current[1..][i].villageId == villageId && current[1..][i].level != -1;
        assert current[i + 1] == current[1..][i];
      }
      if CountUnderway(current, villageId) == 0 {
        forall i | 0 <= i < |current|
          ensures !(current[i].villageId == villageId && current[i].level != -1)
        {
          if i > 0 {
            assert current[i] == current[1..][i - 1];
          }
        }
      }
    }
  }

  /** The account's list after `TaskBasedSetting`: on, the list is kept or
      gets one instant upgrade of this village at its end; off, no instant
      upgrade is left in it. */
  function Reconciled(list: seq<Task>, isInstantComplete: bool, villageId: VillageId, accountId: AccountId,
                      current: seq<CurrentlyBuilding>): (r: seq<Task>)
    ensures isInstantComplete ==> r == list || r == list + [InstantUpgradeTask(villageId, accountId)]
    ensures !isInstantComplete ==> !HasInstantUpgrade(r)
  {
    if !isInstantComplete then WithoutInstantUpgrades(list)
    else if HasInstantUpgrade(list) then list
    else if CountUnderway(current, villageId) > 0 then list + [InstantUpgradeTask(villageId, accountId)]
    else list
  }

  /** What `TaskBasedSetting` promises: off takes every instant upgrade out
      of the account's list, whatever its village, and keeps every other
      task, as often as it was there and in its order;
      on leaves a list that already holds an instant upgrade, of any village,
      alone, and otherwise adds exactly one for this village if and only if
      one of its buildings is under construction. */
  lemma ReconciledSpec(list: seq<Task>, isInstantComplete: bool, villageId: VillageId, accountId: AccountId,
                       current: seq<CurrentlyBuilding>)
    ensures var r := Reconciled(list, isInstantComplete, villageId, accountId, current);
      && (!isInstantComplete ==>
            && !HasInstantUpgrade(r)
            && (forall t :: multiset(r)[t] == if IsInstantUpgrade(t) then 0 else multiset(list)[t])
            && IsSubsequence(r, list))
      && (isInstantComplete && HasInstantUpgrade(list) ==> r == list)
      && (isInstantComplete && !HasInstantUpgrade(list) ==>
            (r == list + [InstantUpgradeTask(villageId, accountId)] <==>
               exists i :: 0 <= i < |current| && current[i].villageId == villageId && current[i].level != -1)
            && (r == list || r == list + [InstantUpgradeTask(villageId, accountId)]))
  {
    WithoutInstantUpgradesCounts(list);
    WithoutInstantUpgradesInOrder(list);
    CountUnderwayPositive(current, villageId);
    if isInstantComplete && !HasInstantUpgrade(list) && CountUnderway(current, villageId) == 0 {
      assert |list + [InstantUpgradeTask(villageId, accountId)]| != |list|;
    }
  }

  /** Taking the instant upgrades out twice is taking them out once. */
  lemma {:induction false} WithoutInstantUpgradesIdempotent(list: seq<Task>)
    ensures WithoutInstantUpgrades(WithoutInstantUpgrades(list)) == WithoutInstantUpgrades(list)
  {
    if list != [] {
      WithoutInstantUpgradesIdempotent(list[1..]);
      var rest := WithoutInstantUpgrades(list[1..]);
      if IsInstantUpgrade(list[0]) {
        assert WithoutInstantUpgrades(list) == rest;
      } else {
        var kept := [list[0]] + rest;
        assert WithoutInstantUpgrades(list) == kept;
        assert kept[0] == list[0] && kept[1..] == rest;
      }
    }
  }

  /** Saving the same setting twice leaves the queue as saving it once: at
      most the one added instant upgrade when on, none when off. */
  lemma ReconcileIdempotent(list: seq<Task>, isInstantComplete: bool, villageId: VillageId, accountId: AccountId,
                            current: seq<CurrentlyBuilding>)
    ensures var once := Reconciled(list, isInstantComplete, villageId, accountId, current);
            Reconciled(once, isInstantComplete, villageId, accountId, current) == once
  {
    if !isInstantComplete {
      WithoutInstantUpgradesIdempotent(list);
    } else if !HasInstantUpgrade(list) && CountUnderway(current, villageId) > 0 {
      var once := list + [InstantUpgradeTask(villageId, accountId)];
      assert IsInstantUpgrade(once[|list|]);
    }
  }

  /** What the tab shows and loads from, and what it writes to. */
  datatype ImportDialog = Cancelled | InvalidFile | Parsed(setting: VillageSetting)

  /** The view model of the village settings tab. `stored` stands for the
      village-settings table: a village with a key has its row. */
  class SettingsViewModel {
    const villageId: VillageId
    const accountId: AccountId
    const taskManager: TaskManager
    var settings: VillageSetting
    var stored: map<VillageId, VillageSetting>
    var messages: seq<string>

    constructor (villageId: VillageId, accountId: AccountId, taskManager: TaskManager, settings: VillageSetting,
                 stored: map<VillageId, VillageSetting>)
      ensures this.villageId == villageId && this.accountId == accountId && this.taskManager == taskManager
      ensures this.settings == settings && this.stored == stored && messages == []
    {
      this.villageId := villageId;
      this.accountId := accountId;
      this.taskManager := taskManager;
      this.settings := settings;
      this.stored := stored;
      messages := [];
    }

    /** `TaskBasedSetting`: the account's list becomes `Reconciled`. When
        off, each instant upgrade of a snapshot taken beforehand is removed
        in turn. */
    method TaskBasedSetting(current: seq<CurrentlyBuilding>)
      requires taskManager.Registered(accountId)
      modifies taskManager
      ensures taskManager.lists == old(taskManager.lists)[accountId :=
                Reconciled(old(taskManager.lists[accountId]), settings.isInstantComplete, villageId, accountId, current)]
      ensures taskManager.status == old(taskManager.status)
    {
      var list := taskManager.GetList(accountId);
      var tasks := InstantUpgrades(list);
      if settings.isInstantComplete {
        if |tasks| == 0 {
          assert !HasInstantUpgrade(list);
          var count := CountUnderway(current, villageId);
          if count > 0 {
            taskManager.Add(accountId, InstantUpgradeTask(villageId, accountId));
          }
        } else {
          assert tasks[0] in list;
        }
      } else {
        RemoveEach(list, tasks);
        KeepInstantUpgrades(list, set t | t in tasks);
      }
    }

    /** The `foreach` loop of `TaskBasedSetting`: each task of the snapshot
        `tasks` is removed from the account's list `list` in turn. */
    method RemoveEach(list: seq<Task>, tasks: seq<Task>)
      requires taskManager.Registered(accountId) && taskManager.lists[accountId] == list
      modifies taskManager
      ensures taskManager.lists == old(taskManager.lists)[accountId := Keep(list, set t | t in tasks)]
      ensures taskManager.status == old(taskManager.status)
    {
      ghost var lists0, status0 := taskManager.lists, taskManager.status;
      ghost var removed: set<Task> := {};
      KeepAll(list);
      for i := 0 to |tasks|
        invariant forall t :: t in removed <==> t in tasks[..i]
        invariant taskManager.lists == lists0[accountId := Keep(list, removed)]
        invariant taskManager.status == status0
      {
        var t := tasks[i];
        WithoutKeep(list, removed, t);
        taskManager.Remove(accountId, t);
        assert tasks[..i + 1] == tasks[..i] + [t];
        removed := removed + {t};
      }
      assert tasks[..|tasks|] == tasks;
      assert removed == set t | t in tasks;
    }

    /** `Save`: the form's values are written into the village's row. */
    method Save()
      requires villageId in stored
      modifies this`stored
      ensures stored == old(stored)[villageId := settings]
    {
      stored := stored[villageId := settings];
    }

    /** `LoadData`: the form is refilled from the row when the village exists. */
    method LoadData(index: VillageId)
      modifies this`settings
      ensures settings == if index in stored then stored[index] else old(settings)
    {
      if index !in stored {
        return;
      }
      settings := stored[index];
    }

    /** `SaveTask`: with a failing check only the warning is shown; otherwise
        the row is saved, the queue reconciled and "Saved." shown. */
    method SaveTask(current: seq<CurrentlyBuilding>)
      requires villageId in stored && taskManager.Registered(accountId)
      modifies this, taskManager
      ensures settings == old(settings)
      ensures CheckInput(settings).Warning? ==>
                && messages == old(messages) + [CheckInput(settings).message]
                && stored == old(stored)
                && taskManager.lists == old(taskManager.lists)
                && taskManager.status == old(taskManager.status)
      ensures CheckInput(settings).Passed? ==>
                && messages == old(messages) + ["Saved."]
                && stored == old(stored)[villageId := settings]
                && taskManager.lists == old(taskManager.lists)[accountId :=
                     Reconciled(old(taskManager.lists[accountId]), settings.isInstantComplete, villageId, accountId, current)]
                && taskManager.status == old(taskManager.status)
    {
      var check := CheckInput(settings);
      if check.Warning? {
        messages := messages + [check.message];
        return;
      }
      Save();
      TaskBasedSetting(current);
      messages := messages + ["Saved."];
    }

    /** `ImportTask`: with a failing check only the warning is shown; a
        cancelled dialog changes nothing; a file that does not parse shows
        "Invalid file."; a parsed setting becomes the village's row, is
        loaded into the form, and the queue is reconciled with it. */
    method ImportTask(dialog: ImportDialog, current: seq<CurrentlyBuilding>)
      requires villageId in stored && taskManager.Registered(accountId)
      modifies this, taskManager
      ensures CheckInput(old(settings)).Warning? ==>
                && messages == old(messages) + [CheckInput(old(settings)).message]
                && settings == old(settings) && stored == old(stored)
                && taskManager.lists == old(taskManager.lists)
      ensures CheckInput(old(settings)).Passed? && dialog.Cancelled? ==>
                && messages == old(messages) && settings == old(settings) && stored == old(stored)
                && taskManager.lists == old(taskManager.lists)
      ensures CheckInput(old(settings)).Passed? && dialog.InvalidFile? ==>
                && messages == old(messages) + ["Invalid file."]
                && settings == old(settings) && stored == old(stored)
                && taskManager.lists == old(taskManager.lists)
      ensures CheckInput(old(settings)).Passed? && dialog.Parsed? ==>
                && messages == old(messages)
                && stored == old(stored)[villageId := dialog.setting]
                && settings == dialog.setting
                && taskManager.lists == old(taskManager.lists)[accountId :=
                     Reconciled(old(taskManager.lists[accountId]), dialog.setting.isInstantComplete, villageId, accountId, current)]
      ensures taskManager.status == old(taskManager.status)
    {
      var check := CheckInput(settings);
      if check.Warning? {
        messages := messages + [check.message];
        return;
      }
      match dialog
      case Cancelled =>
      case InvalidFile =>
        messages := messages + ["Invalid file."];
      case Parsed(setting) =>
        stored := stored[villageId := setting];
        LoadData(villageId);
        TaskBasedSetting(current);
    }
  }
}
