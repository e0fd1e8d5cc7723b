/** Collecting quest rewards on the official servers: click every collect
    button the quest page offers, switching between the two task tabs when
    the page shows none, until the page says nothing is left to claim. */
module CollectReward {

  import opened Wrappers
  import opened Errors
  import opened Entities

  /** A navigation tab of the quest dialog. */
  datatype Tab = Tab(xpath: XPath, active: bool)

  /** What the quest parsers read from one snapshot of the page: the first
      collect button, whether any quest is claimable, and the tabs. */
  datatype QuestPage = QuestPage(collectButton: Option<XPath>, claimable: bool, tabs: seq<Tab>)

  /** One turn of the loop as the browser answers it: whether cancellation
      was requested at its top, the page read then, and the result of the
      one click the turn makes. */
  datatype Round = Round(cancelled: bool, page: QuestPage, click: Result)

  datatype Action = ClickQuest(xpath: XPath) | ClickTab(xpath: XPath) | DelayClick

  /** `GetTab(html, index)`: the tab at that position, or null. */
  function GetTab(tabs: seq<Tab>, index: nat): Option<Tab> {
    if index < |tabs| then Some(tabs[index]) else None
  }

  /** The outcome of the tab helper and the tab it clicked, if any. */
  datatype TabSwitch = TabSwitch(r: Result, clicked: Option<XPath>)

  /** The tab helper as written: with the first tab active, the second tab
      is dereferenced without a null check. */
  datatype TabOutcome = Returned(s: TabSwitch) | NullReference

  function SwitchTabAsWritten(tabs: seq<Tab>, click: Result): (o: TabOutcome)
    ensures o.NullReference? <==> |tabs| == 1 && tabs[0].active
  {
    match GetTab(tabs, 0)
    case None => Returned(TabSwitch(RetryNotFound("tasks", "tab"), None))
    case Some(firstTab) =>
      if firstTab.active then
        match GetTab(tabs, 1)
        case None => NullReference
        case Some(secondTab) =>
          if click.Fail? then Returned(TabSwitch(WithTrace(click, 71), Some(secondTab.xpath)))
          else Returned(TabSwitch(Ok, Some(secondTab.xpath)))
      else if click.Fail? then Returned(TabSwitch(WithTrace(click, 76), Some(firstTab.xpath)))
      else Returned(TabSwitch(Ok, Some(firstTab.xpath)))
  }

  /** A quest page whose only tab is the active one sends the helper to a
      tab that does not exist. */
  lemma SwitchTabAsWrittenDereferencesMissingTab()
    ensures SwitchTabAsWritten([Tab("//a[@id='tab0']", true)], Ok) == NullReference
  {
  }

  /** The tab helper with the missing second tab reported like the missing
      first one. It clicks the second tab when the first is active and the
      first otherwise, and passes a click failure up with a trace. */
  function SwitchTab(tabs: seq<Tab>, click: Result): (s: TabSwitch)
    ensures s.clicked.Some? ==> exists i :: 0 <= i < |tabs| && tabs[i].xpath == s.clicked.value
    ensures |tabs| > 1 && tabs[0].active ==> s.clicked == Some(tabs[1].xpath)
    ensures |tabs| > 0 && !tabs[0].active ==> s.clicked == Some(tabs[0].xpath)
    ensures s.clicked.None? <==> s.r == RetryNotFound("tasks", "tab")
    ensures s.clicked.None? <==> |tabs| == 0 || (|tabs| == 1 && tabs[0].active)
    ensures s.clicked.Some? ==> (s.r.Ok? <==> click.Ok?) && (s.r.Fail? ==> Extends(s.r, click))
  {
    match GetTab(tabs, 0)
    case None => TabSwitch(RetryNotFound("tasks", "tab"), None)
    case Some(firstTab) =>
      if firstTab.active then
        match GetTab(tabs, 1)
        case None => TabSwitch(RetryNotFound("tasks", "tab"), None)
        case Some(secondTab) =>
          if click.Fail? then TabSwitch(WithTrace(click, 71), Some(secondTab.xpath))
          else TabSwitch(Ok, Some(secondTab.xpath))
      else if click.Fail? then TabSwitch(WithTrace(click, 76), Some(firstTab.xpath))
      else TabSwitch(Ok, Some(firstTab.xpath))
  }

  /** Wherever the helper as written returns, the corrected one returns
      the same. */
  lemma SwitchTabAgrees(tabs: seq<Tab>, click: Result)
    requires SwitchTabAsWritten(tabs, click).Returned?
    ensures SwitchTabAsWritten(tabs, click).s == SwitchTab(tabs, click)
  {
  }

  function TabClicks(s: TabSwitch): seq<Action> {
    if s.clicked.Some? then [ClickTab(s.clicked.value)] else []
  }

  /** How the loop ends: with a result, or still wanting another turn when
      the observed turns run out. */
  datatype Outcome = Finished(result: Result) | Unfinished

  /** The body of one turn that was not cancelled: the failure it returns
      with, if any, and the actions it takes. */
  datatype Turn = Turn(stop: Option<Result>, actions: seq<Action>)

  /** The turn ends the loop with a failure: a failed quest click, or, on a
      page without a collect button, no tab to switch to or a failed tab
      click. */
  predicate TurnFails(round: Round) {
    match round.page.collectButton
    case Some(_) => round.click.Fail?
    case None =>
      var tabs := round.page.tabs;
      |tabs| == 0 || (|tabs| == 1 && tabs[0].active) || round.click.Fail?
  }

  /** One turn that was not cancelled. With a collect button it clicks it;
      without one it clicks the other tab. A failed click is passed up with
      a trace, a missing tab becomes the not-found retry with a trace, and a
      turn that does not fail ends with the delay after its click. */
  function TurnOf(round: Round): (t: Turn)
    ensures t.stop.Some? <==> TurnFails(round)
    ensures t.stop.None? ==> |t.actions| == 2 && t.actions[1] == DelayClick
    ensures round.page.collectButton.Some? ==>
              |t.actions| >= 1 && t.actions[0] == ClickQuest(round.page.collectButton.value) &&
              (t.stop.Some? ==> Extends(t.stop.value, round.click))
    ensures round.page.collectButton.None? && t.stop.Some? && |t.actions| == 0 ==>
              Extends(t.stop.value, RetryNotFound("tasks", "tab"))
    ensures round.page.collectButton.None? && t.stop.Some? && |t.actions| != 0 ==>
              |t.actions| == 1 && t.actions[0].ClickTab? && PassedUp(t.stop.value, round.click)
  {
    match round.page.collectButton
    case None =>
      var s := SwitchTab(round.page.tabs, round.click);
      if s.r.Fail? then
        if s.clicked.Some? then
          PassedUpExtends(WithTrace(s.r, 43), s.r, round.click);
          Turn(Some(WithTrace(s.r, 43)), TabClicks(s))
        else Turn(Some(WithTrace(s.r, 43)), TabClicks(s))
      else Turn(None, TabClicks(s) + [DelayClick])
    case Some(xpath) =>
      if round.click.Fail? then Turn(Some(WithTrace(round.click, 50)), [ClickQuest(xpath)])
      else Turn(None, [ClickQuest(xpath), DelayClick])
  }

  /** The loop from turn `i` on: its outcome and the actions it takes. */
  datatype Run = Run(outcome: Outcome, actions: seq<Action>)

  /** The do-while loop of `Handle`, turn by turn. The loop condition reads
      the snapshot taken at the top of the same turn. */
  function Collect(rounds: seq<Round>, i: nat): (run: Run)
    requires i <= |rounds|
    ensures i < |rounds| && rounds[i].cancelled ==> run == Run(Finished(CancelError), [])
    ensures run.outcome == Finished(Ok) ==>
              exists j :: i <= j < |rounds| && !rounds[j].cancelled && !rounds[j].page.claimable
    ensures run.outcome.Unfinished? ==>
              forall j :: i <= j < |rounds| ==> !rounds[j].cancelled && rounds[j].page.claimable
    decreases |rounds| - i
  {
    if i == |rounds| then Run(Unfinished, [])
    else
      var round := rounds[i];
      if round.cancelled then Run(Finished(CancelError), [])
      else
        var turn := TurnOf(round);
        if turn.stop.Some? then Run(Finished(turn.stop.value), turn.actions)
        else if !round.page.claimable then Run(Finished(Ok), turn.actions)
        else
          var rest := Collect(rounds, i + 1);
          Run(rest.outcome, turn.actions + rest.actions)
  }

  /** The loop stops at this turn: it was cancelled, it failed, or the page
      read at its top had nothing left to claim. */
  predicate Stops(round: Round) {
    round.cancelled || TurnFails(round) || !round.page.claimable
  }

  /** The first turn from `i` on at which the loop stops, or the number of
      turns when none does. */
  function FirstStop(rounds: seq<Round>, i: nat): (k: nat)
    requires i <= |rounds|
    ensures i <= k <= |rounds|
    ensures forall j :: i <= j < k ==> !Stops(rounds[j])
    ensures k < |rounds| ==> Stops(rounds[k])
    decreases |rounds| - i
  {
    if i == |rounds| || Stops(rounds[i]) then i else FirstStop(rounds, i + 1)
  }

  /** The actions of turns `i` up to `n`, in order. */
  function TurnActions(rounds: seq<Round>, i: nat, n: nat): seq<Action>
    requires i <= n <= |rounds|
    decreases n - i
  {
    if i == n then [] else TurnOf(rounds[i]).actions + TurnActions(rounds, i + 1, n)
  }

  /** The loop runs every turn up to the first one that stops it and ends
      there: with the cancellation (that turn takes no action), with that
      turn's failure, or with success when its page had nothing left to
      claim; it is unfinished exactly when no observed turn stops it. */
  lemma {:induction false} CollectEndsAtFirstStop(rounds: seq<Round>, i: nat)
    requires i <= |rounds|
    ensures var k := FirstStop(rounds, i);
      var run := Collect(rounds, i);
      && (run.outcome.Unfinished? <==> k == |rounds|)
      && (k == |rounds| ==> run.actions == TurnActions(rounds, i, k))
      && (k < |rounds| && rounds[k].cancelled ==>
            run == Run(Finished(CancelError), TurnActions(rounds, i, k)))
      && (k < |rounds| && !rounds[k].cancelled && TurnFails(rounds[k]) ==>
            run == Run(Finished(TurnOf(rounds[k]).stop.value), TurnActions(rounds, i, k + 1)))
      && (k < |rounds| && !rounds[k].cancelled && !TurnFails(rounds[k]) ==>
            run == Run(Finished(Ok), TurnActions(rounds, i, k + 1)))
    decreases |rounds| - i
  {
    if i < |rounds| {
      assert TurnActions(rounds, i, i) == [];
      if Stops(rounds[i]) {
        assert TurnActions(rounds, i, i + 1) == TurnOf(rounds[i]).actions + [];
        if !rounds[i].cancelled {
          CollectTurn(rounds, i);
        }
      } else {
        CollectTurn(rounds, i);
        CollectEndsAtFirstStop(rounds, i + 1);
        var k := FirstStop(rounds, i);
        assert TurnActions(rounds, i, k) == TurnOf(rounds[i]).actions + TurnActions(rounds, i + 1, k);
        if k < |rounds| {
          assert TurnActions(rounds, i, k + 1) == TurnOf(rounds[i]).actions + TurnActions(rounds, i + 1, k + 1);
        }
      }
    }
  }

  /** `r` is the cancellation of a cancelled turn, that turn's click
      failure passed up with traces, or the missing-tab retry with a trace. */
  predicate CausedBy(r: Result, round: Round) {
    if round.cancelled then r == CancelError
    else PassedUp(r, round.click) ||
         (round.page.collectButton.None? && Extends(r, RetryNotFound("tasks", "tab")))
  }

  /** A failure the loop returns is the cancellation, or comes from one
      turn's click passed up with traces, or is the missing-tab retry with
      a trace; it is never reclassified. */
  lemma {:induction false} CollectFailure(rounds: seq<Round>, i: nat)
    requires i <= |rounds|
    ensures var run := Collect(rounds, i);
      run.outcome.Finished? && run.outcome.result.Fail? ==>
        exists j :: i <= j < |rounds| && CausedBy(run.outcome.result, rounds[j])
    decreases |rounds| - i
  {
    if i < |rounds| {
      var round := rounds[i];
      var run := Collect(rounds, i);
      if !round.cancelled && run.outcome.Finished? && run.outcome.result.Fail? {
        match round.page.collectButton
        case None =>
          var s := SwitchTab(round.page.tabs, round.click);
          if s.r.Fail? {
            if s.clicked.Some? {
              PassedUpExtends(WithTrace(s.r, 43), s.r, round.click);
            }
          } else {
            CollectFailure(rounds, i + 1);
          }
        case Some(xpath) =>
          if round.click.Fail? {
            PassedUpExtends(WithTrace(round.click, 50), round.click, round.click);
          } else {
            CollectFailure(rounds, i + 1);
          }
      }
    }
  }

  /** One turn of `Collect` that was not cancelled, unfolded. */
  lemma CollectTurn(rounds: seq<Round>, i: nat)
    requires i < |rounds| && !rounds[i].cancelled
    ensures var turn := TurnOf(rounds[i]);
      Collect(rounds, i) ==
        if turn.stop.Some? then Run(Finished(turn.stop.value), turn.actions)
        else if !rounds[i].page.claimable then Run(Finished(Ok), turn.actions)
        else Run(Collect(rounds, i + 1).outcome, turn.actions + Collect(rounds, i + 1).actions)
  {
  }

  /** `Handle`: the do-while loop over the turns. A cancelled turn returns
      at once; a page without a collect button switches tab; a failed
      click ends the loop with a trace appended; the result of the delay
      after a click is not looked at. */
  method Handle(rounds: seq<Round>) returns (outcome: Outcome, actions: seq<Action>)
    ensures Run(outcome, actions) == Collect(rounds, 0)
  {
    actions := [];
    var i := 0;
    while i < |rounds|
      invariant i <= |rounds|
      invariant Collect(rounds, 0).outcome == Collect(rounds, i).outcome
      invariant Collect(rounds, 0).actions == actions + Collect(rounds, i).actions
      decreases |rounds| - i
    {
      var round := rounds[i];
      if round.cancelled {
        return Finished(CancelError), actions;
      }
      ghost var turn := TurnOf(round);
      CollectTurn(rounds, i);
      var html := round.page;
      var quest := html.collectButton;
      var taken: seq<Action>;
      if quest.None? {
        var s := SwitchTab(html.tabs, round.click);
        if s.r.Fail? {
          return Finished(WithTrace(s.r, 43)), actions + TabClicks(s);
        }
        taken := TabClicks(s) + [DelayClick];
      } else {
        var result := round.click;
        if result.Fail? {
          return Finished(WithTrace(result, 50)), actions + [ClickQuest(quest.value)];
        }
        taken := [ClickQuest(quest.value), DelayClick];
      }
      assert turn.stop.None? && taken == turn.actions;
      actions := actions + taken;
      if !html.claimable {
        return Finished(Ok), actions;
      }
      i := i + 1;
    }
    return Unfinished, actions;
  }
}
