/** The lifecycle guard every account task runs around its own work:
    `PreExecute` sorts the current page into cancelled, in-game, login page
    or something else, and `PostExecute` refreshes the account state. */
module AccountTasks {

  import opened Wrappers
  import opened Errors
  import opened Engine

  /** The rendered page as the two checks see it: the ids of its elements
      and whether the login-page parser finds a login button. */
  datatype Html = Html(elementIds: set<string>, hasLoginButton: bool)

  /** An in-game page carries the server-time element. */
  predicate IsIngame(html: Html) {
    "servertime" in html.elementIds
  }

  /** A login page carries a login button. */
  predicate IsLogin(html: Html) {
    html.hasLoginButton
  }

  /** What the guard does to the outside: the refresh commands it runs (on
      the browser of the given account, if one was obtained) and the
      notification it publishes. Their results are never inspected. */
  datatype Effect =
    | UpdateAccountInfo(browser: Option<AccountId>, accountId: AccountId)
    | UpdateVillageList(browser: Option<AccountId>, accountId: AccountId)
    | CheckAdventure(browser: Option<AccountId>, accountId: AccountId)
    | PublishAccountLogout(accountId: AccountId)

  /** How far a task is pushed back when it finds the login page. */
  const LogoutDelayMs: int := 1975

  /** The outcome of `PreExecute` for a given cancellation state, page and
      task: the in-game test comes before the login-page test, and only the
      login task itself may proceed on a login page. */
  function PreExecuteResult(cancelled: bool, html: Html, isLoginTask: bool): (r: Result)
    ensures cancelled ==> r == CancelError
    ensures r.Ok? <==> !cancelled && (IsIngame(html) || (IsLogin(html) && isLoginTask))
    ensures r == SkipAccountLogout <==> !cancelled && !IsIngame(html) && IsLogin(html) && !isLoginTask
    ensures r == StopNotTravianPage <==> !cancelled && !IsIngame(html) && !IsLogin(html)
    ensures KindOf(r) != Some(Retry)
  {
    if cancelled then CancelError
    else if IsIngame(html) then Ok
    else if IsLogin(html) then (if isLoginTask then Ok else SkipAccountLogout)
    else StopNotTravianPage
  }

  /** The refreshes and notifications `PreExecute` issues on its way to that
      outcome. */
  function PreExecuteEffects(cancelled: bool, html: Html, isLoginTask: bool, accountId: AccountId): (e: seq<Effect>)
    ensures cancelled ==> e == []
    ensures PreExecuteResult(cancelled, html, isLoginTask).Ok? && IsIngame(html) ==>
      e == [UpdateAccountInfo(Some(accountId), accountId), UpdateVillageList(Some(accountId), accountId)]
    ensures PreExecuteResult(cancelled, html, isLoginTask) == SkipAccountLogout ==> e == [PublishAccountLogout(accountId)]
    ensures PreExecuteResult(cancelled, html, isLoginTask) == StopNotTravianPage ==> e == []
    ensures PreExecuteResult(cancelled, html, isLoginTask).Ok? && !IsIngame(html) ==> e == []
    ensures PublishAccountLogout(accountId) in e <==> PreExecuteResult(cancelled, html, isLoginTask) == SkipAccountLogout
  {
    if cancelled then []
    else if IsIngame(html) then
      [UpdateAccountInfo(Some(accountId), accountId), UpdateVillageList(Some(accountId), accountId)]
    else if IsLogin(html) && !isLoginTask then [PublishAccountLogout(accountId)]
    else []
  }

  class AccountTask {
    /** `this is LoginTask` */
    const isLoginTask: bool
    var accountId: AccountId
    /** `CancellationToken.IsCancellationRequested` as the guard reads it */
    var cancellationRequested: bool
    /** Due time, in milliseconds */
    var executeAt: int
    /** `_chromeBrowser`: the browser of this account once obtained */
    var chromeBrowser: Option<AccountId>
    /** `_loginPageParser` has been resolved */
    var loginParserResolved: bool
    /** Everything the task has done to the outside so far */
    var effects: seq<Effect>

    constructor (isLoginTask: bool, executeAt: int)
      ensures this.isLoginTask == isLoginTask && this.executeAt == executeAt
      ensures chromeBrowser == None && !loginParserResolved && effects == []
      ensures !cancellationRequested
    {
      this.isLoginTask := isLoginTask;
      this.executeAt := executeAt;
      accountId := 0;
      cancellationRequested := false;
      chromeBrowser := None;
      loginParserResolved := false;
      effects := [];
    }

    /** `Setup` binds the task to an account and a cancellation token and
        touches nothing else. */
    method Setup(accountId: AccountId, cancellationRequested: bool)
      modifies this
      ensures this.accountId == accountId && this.cancellationRequested == cancellationRequested
      ensures executeAt == old(executeAt) && chromeBrowser == old(chromeBrowser)
      ensures loginParserResolved == old(loginParserResolved) && effects == old(effects)
    {
      this.accountId := accountId;
      this.cancellationRequested := cancellationRequested;
    }

    /** Cancelling the token the task was set up with: the next guard sees
        the request; nothing else changes. */
    method RequestCancellation()
      modifies this`cancellationRequested
      ensures cancellationRequested
    {
      cancellationRequested := true;
    }

    /** `PreExecute` on the page `html` currently shown by the account's
        browser. Cancellation is seen before the browser is touched; only a
        task that is not the login task and meets the login page moves its
        due time, by exactly `LogoutDelayMs`. */
    method PreExecute(html: Html) returns (r: Result)
      modifies this
      ensures r == PreExecuteResult(old(cancellationRequested), html, isLoginTask)
      ensures effects == old(effects) + PreExecuteEffects(old(cancellationRequested), html, isLoginTask, accountId)
      ensures executeAt == if r == SkipAccountLogout then old(executeAt) + LogoutDelayMs else old(executeAt)
      ensures chromeBrowser == if old(cancellationRequested) then old(chromeBrowser) else Some(accountId)
      ensures loginParserResolved == (old(loginParserResolved) || (!old(cancellationRequested) && !IsIngame(html)))
      ensures accountId == old(accountId) && cancellationRequested == old(cancellationRequested)
    {
      if cancellationRequested {
        return CancelError;
      }
      chromeBrowser := Some(accountId);

      if IsIngame(html) {
        effects := effects + [UpdateAccountInfo(chromeBrowser, accountId)];
        effects := effects + [UpdateVillageList(chromeBrowser, accountId)];
        return Ok;
      }

      loginParserResolved := true;

      if IsLogin(html) {
        if !isLoginTask {
          executeAt := executeAt + LogoutDelayMs;
          effects := effects + [PublishAccountLogout(accountId)];
          return SkipAccountLogout;
        }
        return Ok;
      }

      return StopNotTravianPage;
    }

    /** `PostExecute` refreshes account info, the village list and the
        adventures, in that order, ignores their results and succeeds. */
    method PostExecute() returns (r: Result)
      modifies this`effects
      ensures r == Ok
      ensures effects == old(effects) + [UpdateAccountInfo(chromeBrowser, accountId),
                                          UpdateVillageList(chromeBrowser, accountId),
                                          CheckAdventure(chromeBrowser, accountId)]
    {
      effects := effects + [UpdateAccountInfo(chromeBrowser, accountId)];
      effects := effects + [UpdateVillageList(chromeBrowser, accountId)];
      effects := effects + [CheckAdventure(chromeBrowser, accountId)];
      return Ok;
    }
  }
}
