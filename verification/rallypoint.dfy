/** The farm-list flow of the rally point: go to the village centre, open
    the rally point, switch to the farm-list tab, then start either every
    list at once or each active list of the account. */
module Rallypoint {

  import opened Wrappers
  import opened Errors
  import opened Engine
  import opened Entities

  type FarmId = int

  /** A row of the farm-list table. */
  datatype Farm = Farm(id: FarmId, accountId: AccountId)

  /** What the farm-list parser finds for one farm list when its start
      button is looked for, and what clicking that button returns. */
  datatype FarmPage = FarmPage(startButton: Option<XPath>, click: Result)

  /** What the general helper's navigation calls return. */
  datatype Navigation = Navigation(toDorf2: Result, toBuilding: Result, switchTab: Result)

  /** What the helper does to the browser and the stored farm lists. */
  datatype Action =
    | ToDorf2(villageId: VillageId, switchVillage: bool)
    | ToBuilding(villageId: VillageId, buildingId: int)
    | SwitchTab(index: int)
    | UpdateFarmList(accountId: AccountId)
    | Click(xpath: XPath)

  /** A rally point that has been built, in the given village. */
  predicate IsRallypoint(row: BuildingRow, villageId: VillageId) {
    row.villageId == villageId && row.buildingType == RallyPoint && row.level > 0
  }

  /** The rally-point lookup of `ToRallypoint` (`FirstOrDefault`). */
  function FindRallypoint(rows: seq<BuildingRow>, villageId: VillageId): (r: Option<BuildingRow>)
    ensures r.None? <==> forall i :: 0 <= i < |rows| ==> !IsRallypoint(rows[i], villageId)
    ensures r.Some? ==> exists i :: 0 <= i < |rows| && rows[i] == r.value && IsRallypoint(rows[i], villageId) &&
                                    forall j :: 0 <= j < i ==> !IsRallypoint(rows[j], villageId)
  {
    if rows == [] then None
    else if IsRallypoint(rows[0], villageId) then Some(rows[0])
    else FindRallypoint(rows[1..], villageId)
  }

  /** The failure that stops the start of a farm list, before any trace is
      appended. */
  function StartFarmCause(page: FarmPage): (r: Result)
    ensures r.Fail? <==> StartFarmFails(page)
    ensures page.startButton.None? ==> KindOf(r) == Some(Retry)
    ensures page.startButton.Some? ==> r == page.click
  {
    if page.startButton.None? then RetryWith("Cannot found start button") else page.click
  }

  predicate StartFarmFails(page: FarmPage) {
    page.startButton.None? || page.click.Fail?
  }

  /** `ClickStartFarm` when the parser finds `page.startButton` for the farm
      list: a missing button is a Retry and nothing is clicked; a failing
      click is passed up with a trace appended. */
  method ClickStartFarm(page: FarmPage) returns (r: Result, actions: seq<Action>)
    ensures page.startButton.None? ==> r == RetryWith("Cannot found start button") && actions == []
    ensures page.startButton.Some? ==> actions == [Click(page.startButton.value)]
    ensures r.Ok? <==> !StartFarmFails(page)
    ensures page.startButton.Some? && page.click.Fail? ==> Extends(r, page.click)
  {
    if page.startButton.None? {
      return RetryWith("Cannot found start button"), [];
    }
    actions := [Click(page.startButton.value)];
    var result := page.click;
    if result.Fail? { return WithTrace(result, 42), actions; }
    return Ok, actions;
  }

  /** `ToRallypoint`: without a built rally point in the village the result
      is a Skip and nothing is navigated; otherwise the helper goes to the
      first such building. */
  method ToRallypoint(villageId: VillageId, rows: seq<BuildingRow>, toBuilding: Result) returns (r: Result, actions: seq<Action>)
    ensures FindRallypoint(rows, villageId).None? ==> r == SkipWith("Rallypoint is missing") && actions == []
    ensures FindRallypoint(rows, villageId).Some? ==>
      && actions == [ToBuilding(villageId, FindRallypoint(rows, villageId).value.id)]
      && (toBuilding.Ok? ==> r == Ok)
      && (toBuilding.Fail? ==> Extends(r, toBuilding))
  {
    var rallypoint := FindRallypoint(rows, villageId);
    if rallypoint.None? {
      return SkipWith("Rallypoint is missing"), [];
    }
    actions := [ToBuilding(villageId, rallypoint.value.id)];
    var result := toBuilding;
    if result.Fail? { return WithTrace(result, 110), actions; }
    return Ok, actions;
  }

  /** All three steps of entering the farm-list page succeed. */
  predicate EnterSucceeds(villageId: VillageId, rows: seq<BuildingRow>, nav: Navigation) {
    && nav.toDorf2.Ok?
    && FindRallypoint(rows, villageId).Some?
    && nav.toBuilding.Ok?
    && nav.switchTab.Ok?
  }

  /** The failure of the first step of entering the farm-list page that
      fails, before any trace is appended. */
  function EnterCause(villageId: VillageId, rows: seq<BuildingRow>, nav: Navigation): (c: Result)
    requires !EnterSucceeds(villageId, rows, nav)
    ensures c.Fail?
  {
    if nav.toDorf2.Fail? then nav.toDorf2
    else if FindRallypoint(rows, villageId).None? then SkipWith("Rallypoint is missing")
    else if nav.toBuilding.Fail? then nav.toBuilding
    else nav.switchTab
  }

  /** What entering the farm-list page does: the steps up to and including
      the first that fails, and the farm-list refresh only after all three
      succeed. */
  function EnterActions(accountId: AccountId, villageId: VillageId, rows: seq<BuildingRow>, nav: Navigation): (a: seq<Action>)
    ensures UpdateFarmList(accountId) in a <==> EnterSucceeds(villageId, rows, nav)
    ensures |a| > 0 && a[0] == ToDorf2(villageId, true)
  {
    var rallypoint := FindRallypoint(rows, villageId);
    [ToDorf2(villageId, true)]
    + (if nav.toDorf2.Fail? || rallypoint.None? then [] else [ToBuilding(villageId, rallypoint.value.id)])
    + (if nav.toDorf2.Fail? || rallypoint.None? || nav.toBuilding.Fail? then [] else [SwitchTab(4)])
    + (if EnterSucceeds(villageId, rows, nav) then [UpdateFarmList(accountId)] else [])
  }

  /** `EnterFarmListPage`: the village centre (switching village), the rally
      point, then tab 4, in that order; the first failure is returned with
      a trace appended. */
  method EnterFarmListPage(accountId: AccountId, villageId: VillageId, rows: seq<BuildingRow>, nav: Navigation)
    returns (r: Result, actions: seq<Action>)
    ensures r.Ok? <==> EnterSucceeds(villageId, rows, nav)
    ensures !EnterSucceeds(villageId, rows, nav) ==> PassedUp(r, EnterCause(villageId, rows, nav))
    ensures actions == EnterActions(accountId, villageId, rows, nav)
  {
    var result := nav.toDorf2;
    actions := [ToDorf2(villageId, true)];
    if result.Fail? { return WithTrace(result, 49), actions; }

    var acts;
    result, acts := ToRallypoint(villageId, rows, nav.toBuilding);
    actions := actions + acts;
    if result.Fail? {
      r := WithTrace(result, 52);
      if FindRallypoint(rows, villageId).Some? {
        PassedUpExtends(r, result, nav.toBuilding);
      }
      return r, actions;
    }

    result := nav.switchTab;
    actions := actions + [SwitchTab(4)];
    if result.Fail? { return WithTrace(result, 55), actions; }

    actions := actions + [UpdateFarmList(accountId)];
    return Ok, actions;
  }

  /** The farm lists of the account (`Where(x => x.AccountId == accountId)`). */
  function FarmsOf(farms: seq<Farm>, accountId: AccountId): (r: seq<Farm>)
    ensures forall f :: f in r <==> f in farms && f.accountId == accountId
    ensures |r| <= |farms|
  {
    if farms == [] then []
    else if farms[0].accountId == accountId then [farms[0]] + FarmsOf(farms[1..], accountId)
    else FarmsOf(farms[1..], accountId)
  }

  /** Every farm list of the given ones has a setting and a page observation. */
  predicate Observed(farms: seq<Farm>, isActive: map<FarmId, bool>, pages: map<FarmId, FarmPage>) {
    forall i :: 0 <= i < |farms| ==> farms[i].id in isActive && farms[i].id in pages
  }

  /** The clicks made on the first `n` of the farm lists `farms`: one per
      active list whose start button is found. */
  function FarmClicks(farms: seq<Farm>, isActive: map<FarmId, bool>, pages: map<FarmId, FarmPage>, n: nat): (r: seq<Action>)
    requires n <= |farms|
    requires Observed(farms, isActive, pages)
    ensures |r| <= n
    ensures forall i :: 0 <= i < |r| ==> r[i].Click?
  {
    if n == 0 then []
    else
      var f := farms[n - 1];
      FarmClicks(farms, isActive, pages, n - 1)
      + (if isActive[f.id] && pages[f.id].startButton.Some? then [Click(pages[f.id].startButton.value)] else [])
  }

  /** Only active farm lists are clicked, and each on its own start button. */
  lemma {:induction false} FarmClicksOnlyActive(farms: seq<Farm>, isActive: map<FarmId, bool>, pages: map<FarmId, FarmPage>, n: nat)
    requires n <= |farms|
    requires Observed(farms, isActive, pages)
    ensures forall a :: a in FarmClicks(farms, isActive, pages, n) ==>
      exists j :: 0 <= j < n && isActive[farms[j].id] && pages[farms[j].id].startButton.Some?
        && a == Click(pages[farms[j].id].startButton.value)
  {
    if n > 0 {
      FarmClicksOnlyActive(farms, isActive, pages, n - 1);
    }
  }

  /** The position of the first active farm list among `farms` whose start
      fails, or `|farms|`. */
  function FirstFarmFailure(farms: seq<Farm>, isActive: map<FarmId, bool>, pages: map<FarmId, FarmPage>, i: nat): (k: nat)
    requires i <= |farms|
    requires Observed(farms, isActive, pages)
    ensures i <= k <= |farms|
    ensures forall j :: i <= j < k ==> !(isActive[farms[j].id] && StartFarmFails(pages[farms[j].id]))
    ensures k < |farms| ==> isActive[farms[k].id] && StartFarmFails(pages[farms[k].id])
    decreases |farms| - i
  {
    if i == |farms| then i
    else if isActive[farms[i].id] && StartFarmFails(pages[farms[i].id]) then i
    else FirstFarmFailure(farms, isActive, pages, i + 1)
  }

  /** The `foreach` loop of `StartFarmList` over the account's farm lists
      `farms`: each active list is started in order, and the first start
      that fails ends the loop. */
  method StartEachFarm(farms: seq<Farm>, isActive: map<FarmId, bool>, pages: map<FarmId, FarmPage>)
    returns (r: Result, actions: seq<Action>)
    requires Observed(farms, isActive, pages)
    ensures var k := FirstFarmFailure(farms, isActive, pages, 0);
      && (k == |farms| ==> r == Ok && actions == FarmClicks(farms, isActive, pages, |farms|))
      && (k < |farms| ==> actions == FarmClicks(farms, isActive, pages, k + 1))
      && (k < |farms| && pages[farms[k].id].startButton.None? ==> r == StartFarmCause(pages[farms[k].id]))
      && (k < |farms| && pages[farms[k].id].startButton.Some? ==> Extends(r, StartFarmCause(pages[farms[k].id])))
  {
    actions := [];
    var i := 0;
    while i < |farms|
      invariant i <= |farms|
      invariant FirstFarmFailure(farms, isActive, pages, 0) == FirstFarmFailure(farms, isActive, pages, i)
      invariant actions == FarmClicks(farms, isActive, pages, i)
    {
      var farm := farms[i];
      var active := isActive[farm.id];
      if active {
        var result, acts := ClickStartFarm(pages[farm.id]);
        actions := actions + acts;
        if result.Fail? {
          return result, actions;
        }
      }
      i := i + 1;
    }
    return Ok, actions;
  }

  /** `StartFarmList` for the account's setting `useStartAllFarm`, the
      parser's start-all button `startAllButton`, the result `clickAll` of
      clicking it, the farm-list table `farms`, each list's `IsActive`
      setting, and what each list's start button shows. */
  method StartFarmList(accountId: AccountId, villageId: VillageId, rows: seq<BuildingRow>, nav: Navigation,
                       useStartAllFarm: bool, startAllButton: Option<XPath>, clickAll: Result,
                       farms: seq<Farm>, isActive: map<FarmId, bool>, pages: map<FarmId, FarmPage>)
    returns (r: Result, actions: seq<Action>)
    requires EnterSucceeds(villageId, rows, nav) && !useStartAllFarm ==> Observed(FarmsOf(farms, accountId), isActive, pages)
    ensures var enter := EnterActions(accountId, villageId, rows, nav);
      && (!EnterSucceeds(villageId, rows, nav) ==>
            actions == enter && PassedUp(r, EnterCause(villageId, rows, nav)))
      && (EnterSucceeds(villageId, rows, nav) && useStartAllFarm && startAllButton.None? ==>
            actions == enter && r == RetryWith("Cannot found start all button"))
      && (EnterSucceeds(villageId, rows, nav) && useStartAllFarm && startAllButton.Some? ==>
            && actions == enter + [Click(startAllButton.value)]
            && (clickAll.Ok? ==> r == Ok)
            && (clickAll.Fail? ==> Extends(r, clickAll)))
      && (EnterSucceeds(villageId, rows, nav) && !useStartAllFarm ==>
            var mine := FarmsOf(farms, accountId);
            var k := FirstFarmFailure(mine, isActive, pages, 0);
            && (k == |mine| ==> r == Ok && actions == enter + FarmClicks(mine, isActive, pages, |mine|))
            && (k < |mine| ==>
                  && PassedUp(r, StartFarmCause(pages[mine[k].id]))
                  && actions == enter + FarmClicks(mine, isActive, pages, k + 1)))
  {
    var result;
    result, actions := EnterFarmListPage(accountId, villageId, rows, nav);
    if result.Fail? {
      r := WithTrace(result, 65);
      PassedUpExtends(r, result, EnterCause(villageId, rows, nav));
      return r, actions;
    }

    if useStartAllFarm {
      if startAllButton.None? {
        return RetryWith("Cannot found start all button"), actions;
      }
      actions := actions + [Click(startAllButton.value)];
      result := clickAll;
      if result.Fail? { return WithTrace(result, 82), actions; }
    } else {
      var acts;
      result, acts := StartEachFarm(FarmsOf(farms, accountId), isActive, pages);
      actions := actions + acts;
      if result.Fail? {
        r := WithTrace(result, 93);
        ghost var mine := FarmsOf(farms, accountId);
        PassedUpExtends(r, result, StartFarmCause(pages[mine[FirstFarmFailure(mine, isActive, pages, 0)].id]));
        return r, actions;
      }
    }
    return Ok, actions;
  }
}
