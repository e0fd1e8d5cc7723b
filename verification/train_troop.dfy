/** The recurring task that trains troops in each troop building of a
    village, turns off the building's training setting when the building
    is gone, stops at the first shortage of resources and reschedules
    itself. */
module TrainTroop {

  import opened Errors
  import opened Engine
  import opened Entities

  /** `_settings`: which village setting switches training in each building off. */
  const TroopSettings: map<BuildingType, VillageSettingName> :=
    map[Barracks := BarrackTroop, Stable := StableTroop, Workshop := WorkshopTroop]

  /** The building is missing: its setting is turned off. */
  predicate IsMissingBuilding(r: Result) {
    HasError(r, MissingBuilding)
  }

  /** A resource shortage that is not also a missing building ends the loop. */
  predicate EndsTraining(r: Result) {
    r.Fail? && !HasError(r, MissingBuilding) && HasError(r, MissingResource)
  }

  /** Every building that reports itself missing has a setting to turn off
      (otherwise the dictionary indexer throws). */
  predicate MappedWhenMissing(buildings: seq<BuildingType>, outcomes: seq<Result>)
    requires |outcomes| == |buildings|
  {
    forall i :: 0 <= i < |buildings| && IsMissingBuilding(outcomes[i]) ==> buildings[i] in TroopSettings
  }

  /** No building type reports itself missing twice (otherwise
      `Dictionary.Add` throws on the second key). */
  predicate MissingAtMostOnce(buildings: seq<BuildingType>, outcomes: seq<Result>)
    requires |outcomes| == |buildings|
  {
    forall i, j :: 0 <= i < j < |buildings| && buildings[i] == buildings[j] ==>
      !(IsMissingBuilding(outcomes[i]) && IsMissingBuilding(outcomes[j]))
  }

  /** How many buildings are tried when the n-th training command returns
      `outcomes[n]`: all of them, or up to and including the first one that
      ends the loop. */
  function Attempted(outcomes: seq<Result>): (n: nat)
    ensures n <= |outcomes|
    ensures n == 0 <==> outcomes == []
    ensures forall i :: 0 <= i < n - 1 ==> !EndsTraining(outcomes[i])
    ensures n < |outcomes| ==> EndsTraining(outcomes[n - 1])
  {
    if outcomes == [] then 0
    else if EndsTraining(outcomes[0]) then 1
    else 1 + Attempted(outcomes[1..])
  }

  /** The settings recorded while trying the first `n` buildings: training
      settings only, each switched off. */
  function Collected(buildings: seq<BuildingType>, outcomes: seq<Result>, n: nat): (m: map<VillageSettingName, int>)
    requires n <= |buildings| == |outcomes|
    requires MappedWhenMissing(buildings, outcomes)
    ensures forall s :: s in m ==> m[s] == 0 && s in TroopSettings.Values
  {
    if n == 0 then map[]
    else
      var m := Collected(buildings, outcomes, n - 1);
      if IsMissingBuilding(outcomes[n - 1]) then m[TroopSettings[buildings[n - 1]] := 0] else m
  }

  /** The recorded settings are exactly those of the buildings among the
      first `n` that reported themselves missing, each with value 0. */
  lemma {:induction false} CollectedKeys(buildings: seq<BuildingType>, outcomes: seq<Result>, n: nat)
    requires n <= |buildings| == |outcomes|
    requires MappedWhenMissing(buildings, outcomes)
    ensures forall s :: s in Collected(buildings, outcomes, n) ==> Collected(buildings, outcomes, n)[s] == 0
    ensures forall s :: s in Collected(buildings, outcomes, n) <==>
      exists i :: 0 <= i < n && IsMissingBuilding(outcomes[i]) && buildings[i] in TroopSettings && TroopSettings[buildings[i]] == s
  {
    if n > 0 {
      CollectedKeys(buildings, outcomes, n - 1);
    }
  }

  /** The `foreach` loop of `Execute`: the n-th building's training command
      returns `outcomes[n]`. Returns the collected settings and how many
      commands were sent. */
  method TrainEach(buildings: seq<BuildingType>, outcomes: seq<Result>)
    returns (settings: map<VillageSettingName, int>, attempted: nat)
    requires |outcomes| == |buildings|
    requires MappedWhenMissing(buildings, outcomes)
    requires MissingAtMostOnce(buildings, outcomes)
    ensures attempted == Attempted(outcomes)
    ensures settings == Collected(buildings, outcomes, attempted)
  {
    settings := map[];
    var i := 0;
    while i < |buildings|
      invariant i <= |buildings|
      invariant settings == Collected(buildings, outcomes, i)
      invariant forall j :: 0 <= j < i ==> !EndsTraining(outcomes[j])
    {
      var result := outcomes[i];
      if result.Fail? {
        if HasError(result, MissingBuilding) {
          // `Dictionary.Add`: the key is new
          NewKey(buildings, outcomes, i);
          settings := settings[TroopSettings[buildings[i]] := 0];
        } else if HasError(result, MissingResource) {
          i := i + 1;
          AttemptedStopsAt(outcomes, i);
          return settings, i;
        }
      }
      i := i + 1;
    }
    if i > 0 {
      AttemptedStopsAt(outcomes, i);
    }
    attempted := i;
  }

  /** A building that reports itself missing adds a setting that is not
      yet in the dictionary. */
  lemma NewKey(buildings: seq<BuildingType>, outcomes: seq<Result>, n: nat)
    requires n < |buildings| == |outcomes|
    requires MappedWhenMissing(buildings, outcomes)
    requires MissingAtMostOnce(buildings, outcomes)
    requires IsMissingBuilding(outcomes[n])
    ensures buildings[n] in TroopSettings
    ensures TroopSettings[buildings[n]] !in Collected(buildings, outcomes, n)
  {
    CollectedKeys(buildings, outcomes, n);
    forall j | 0 <= j < n && IsMissingBuilding(outcomes[j]) && buildings[j] in TroopSettings
      ensures TroopSettings[buildings[j]] != TroopSettings[buildings[n]]
    {
      assert buildings[j] != buildings[n];
    }
  }

  /** `Attempted` is the position just after the first loop-ending result. */
  lemma AttemptedStopsAt(outcomes: seq<Result>, n: nat)
    requires 0 < n <= |outcomes|
    requires forall j :: 0 <= j < n - 1 ==> !EndsTraining(outcomes[j])
    requires n < |outcomes| ==> EndsTraining(outcomes[n - 1])
    ensures Attempted(outcomes) == n
  {
  }

  /** A training command the task sent. */
  datatype TrainTroopCommand = TrainTroopCommand(accountId: AccountId, villageId: VillageId, building: BuildingType)

  /** A call of `VillageSettingRepository.Update`. */
  datatype SettingsUpdate = SettingsUpdate(villageId: VillageId, settings: map<VillageSettingName, int>)

  class TrainTroopTask {
    const accountId: AccountId
    const villageId: VillageId
    /** Due time, in milliseconds */
    var executeAt: int
    var name: string
    var commandsSent: seq<TrainTroopCommand>
    var settingsUpdates: seq<SettingsUpdate>

    constructor (accountId: AccountId, villageId: VillageId, executeAt: int)
      ensures this.accountId == accountId && this.villageId == villageId && this.executeAt == executeAt
      ensures commandsSent == [] && settingsUpdates == [] && name == ""
    {
      this.accountId := accountId;
      this.villageId := villageId;
      this.executeAt := executeAt;
      name := "";
      commandsSent := [];
      settingsUpdates := [];
    }

    /** `Execute` for the village's troop buildings `buildings`, whose
        training commands return `outcomes`, at clock time `now` (ms) with a
        configured repeat time of `repeatSeconds`. Training failures never
        surface: the result is always Ok. */
    method Execute(buildings: seq<BuildingType>, outcomes: seq<Result>, now: int, repeatSeconds: int) returns (r: Result)
      requires |outcomes| == |buildings|
      requires MappedWhenMissing(buildings, outcomes)
      requires MissingAtMostOnce(buildings, outcomes)
      modifies this
      ensures r == Ok
      ensures name == old(name)
      ensures buildings == [] ==>
        executeAt == old(executeAt) && commandsSent == old(commandsSent) && settingsUpdates == old(settingsUpdates)
      ensures buildings != [] ==>
        var n := Attempted(outcomes);
        && commandsSent == old(commandsSent) + SentCommands(buildings[..n])
        && settingsUpdates == old(settingsUpdates) + [SettingsUpdate(villageId, Collected(buildings, outcomes, n))]
        && executeAt == now + repeatSeconds * 1000
    {
      if |buildings| == 0 {
        return Ok;
      }
      var settings, attempted := TrainEach(buildings, outcomes);
      commandsSent := commandsSent + SentCommands(buildings[..attempted]);
      settingsUpdates := settingsUpdates + [SettingsUpdate(villageId, settings)];
      SetNextExecute(now, repeatSeconds);
      return Ok;
    }

    /** The training commands for the given buildings, in order. */
    function SentCommands(buildings: seq<BuildingType>): (c: seq<TrainTroopCommand>)
      ensures |c| == |buildings|
      ensures forall i :: 0 <= i < |c| ==> c[i] == TrainTroopCommand(accountId, villageId, buildings[i])
    {
      if buildings == [] then []
      else [TrainTroopCommand(accountId, villageId, buildings[0])] + SentCommands(buildings[1..])
    }

    /** `SetNextExecute`: due again `repeatSeconds` after `now`. */
    method SetNextExecute(now: int, repeatSeconds: int)
      modifies this`executeAt
      ensures executeAt == now + repeatSeconds * 1000
    {
      executeAt := now + repeatSeconds * 1000;
    }

    /** `SetName` from the village's name. */
    method SetName(villageName: string)
      modifies this`name
      ensures name == "Training troop in " + villageName
    {
      name := "Training troop in " + villageName;
    }
  }
}
