/** The task that refreshes every building of a village by reading both
    village pages, starting from whichever page the browser already shows. */
module UpdateBuilding {

  import opened Wrappers
  import opened Errors
  import opened Engine
  import opened Text

  /** One effectful step of the plan: the building-update command, or a
      navigation to a village page (1 = resource fields, 2 = centre) on the
      given browser. */
  datatype Step =
    | UpdateBuildings(accountId: AccountId, villageId: VillageId)
    | ToDorf(browser: Option<AccountId>, dorf: nat)

  /** The page a URL shows: 1 or 2 for the two village pages, 0 otherwise.
      A URL naming both counts as the first. */
  function StartPage(url: string): nat {
    if Contains(url, "dorf1") then 1 else if Contains(url, "dorf2") then 2 else 0
  }

  /** The pages on which the building update runs when `steps` are carried
      out from page `page` and every navigation succeeds. */
  function UpdatedPages(page: nat, steps: seq<Step>): seq<nat>
    decreases |steps|
  {
    if steps == [] then []
    else match steps[0]
      case UpdateBuildings(_, _) => [page] + UpdatedPages(page, steps[1..])
      case ToDorf(_, d) => UpdatedPages(d, steps[1..])
  }

  /** The steps `Execute` carries out, in order, when all succeed. Every
      navigation uses the browser given (the task's own browser field); the
      plan has a fourth step exactly when the browser is on neither village
      page. */
  function Plan(url: string, accountId: AccountId, villageId: VillageId, browser: Option<AccountId>): (p: seq<Step>)
    ensures forall i :: 0 <= i < |p| && p[i].ToDorf? ==> p[i].browser == browser
    ensures StartPage(url) == 0 <==> |p| == 4
    ensures 3 <= |p| <= 4
  {
    var update := UpdateBuildings(accountId, villageId);
    if Contains(url, "dorf1") then [update, ToDorf(browser, 2), update]
    else if Contains(url, "dorf2") then [update, ToDorf(browser, 1), update]
    else [ToDorf(browser, 2), update, ToDorf(browser, 1), update]
  }

  /** Whatever page the browser starts on, a successful plan runs the
      building update exactly twice, once on each village page. */
  lemma PlanUpdatesEachPageOnce(url: string, accountId: AccountId, villageId: VillageId, browser: Option<AccountId>)
    ensures var pages := UpdatedPages(StartPage(url), Plan(url, accountId, villageId, browser));
      pages == [1, 2] || pages == [2, 1]
  {
    var p := Plan(url, accountId, villageId, browser);
    var update := UpdateBuildings(accountId, villageId);
    if Contains(url, "dorf1") {
      assert p[1..][1..] == [update];
      assert UpdatedPages(2, [update]) == [2];
      assert UpdatedPages(1, p[1..]) == [2];
    } else if Contains(url, "dorf2") {
      assert p[1..][1..] == [update];
      assert UpdatedPages(1, [update]) == [1];
      assert UpdatedPages(2, p[1..]) == [1];
    } else {
      assert p[1..][1..][1..] == [update];
      assert UpdatedPages(1, [update]) == [1];
      assert UpdatedPages(2, p[1..][1..]) == [1];
      assert UpdatedPages(2, p[1..]) == [2, 1];
    }
  }

  class UpdateBuildingTask {
    const accountId: AccountId
    const villageId: VillageId
    /** `_chromeBrowser`, set by the lifecycle guard */
    var chromeBrowser: Option<AccountId>
    var name: string

    constructor (accountId: AccountId, villageId: VillageId, chromeBrowser: Option<AccountId>)
      ensures this.accountId == accountId && this.villageId == villageId
      ensures this.chromeBrowser == chromeBrowser && name == ""
    {
      this.accountId := accountId;
      this.villageId := villageId;
      this.chromeBrowser := chromeBrowser;
      name := "";
    }

    /** `Execute` when the account's browser shows `url` and the n-th step
        carried out returns `outcomes[n]`. It stops at the first failing
        step and returns that failure with a trace appended; on success it
        has carried out the whole plan. */
    method Execute(url: string, outcomes: seq<Result>) returns (r: Result, performed: seq<Step>)
      requires |outcomes| >= 4
      ensures var plan := Plan(url, accountId, villageId, chromeBrowser);
        var k := FirstFailure(outcomes, |plan|);
        && (k == |plan| ==> r == Ok && performed == plan)
        && (k < |plan| ==> Extends(r, outcomes[k]) && performed == plan[..k + 1])
    {
      var update := UpdateBuildings(accountId, villageId);
      var result: Result;
      if Contains(url, "dorf1") {
        performed, result := [update], outcomes[0];
        if result.Fail? { return WithTrace(result, 20), performed; }
        performed, result := performed + [ToDorf(chromeBrowser, 2)], outcomes[1];
        if result.Fail? { return WithTrace(result, 22), performed; }
        performed, result := performed + [update], outcomes[2];
        if result.Fail? { return WithTrace(result, 24), performed; }
      } else if Contains(url, "dorf2") {
        performed, result := [update], outcomes[0];
        if result.Fail? { return WithTrace(result, 29), performed; }
        performed, result := performed + [ToDorf(chromeBrowser, 1)], outcomes[1];
        if result.Fail? { return WithTrace(result, 31), performed; }
        performed, result := performed + [update], outcomes[2];
        if result.Fail? { return WithTrace(result, 33), performed; }
      } else {
        performed, result := [ToDorf(chromeBrowser, 2)], outcomes[0];
        if result.Fail? { return WithTrace(result, 38), performed; }
        performed, result := performed + [update], outcomes[1];
        if result.Fail? { return WithTrace(result, 40), performed; }
        performed, result := performed + [ToDorf(chromeBrowser, 1)], outcomes[2];
        if result.Fail? { return WithTrace(result, 42), performed; }
        performed, result := performed + [update], outcomes[3];
        if result.Fail? { return WithTrace(result, 44), performed; }
      }
      return Ok, performed;
    }

    /** `SetName` from the village's name. */
    method SetName(villageName: string)
      modifies this`name
      ensures name == "Update all buildings in " + villageName
    {
      name := "Update all buildings in " + villageName;
    }
  }
}
