/** The error taxonomy every task and helper reports through.

    A FluentResults `Result` is either Ok or failed with a list of errors;
    `WithError` appends to that list. The four error classes the engine
    reacts to (Retry, Skip, Stop, Cancel) carry a reason; the troop-training
    errors and the trace entries appended by intermediate layers are the
    other error objects that appear in the core. */
module Errors {

  import opened Wrappers

  datatype Kind = Retry | Skip | Stop | Cancel

  /** Why a classified error was raised: the named static errors of the
      source (`Skip.AccountLogout`, `Stop.NotTravianPage`,
      `Retry.NotFound(..)`) or a free-form message (`new Retry("...")`). */
  datatype Reason =
    | Unspecified
    | AccountLogout
    | NotTravianPage
    | NotFound(subject: string, element: string)
    | Message(text: string)

  datatype Error =
    | Classified(kind: Kind, reason: Reason)
    | MissingBuilding
    | MissingResource
    | Trace(line: nat)          // call-site context, identified by the source line
    | Domain(text: string)      // any other error a collaborator reports

  datatype Result = Ok | Fail(errors: seq<Error>)

  /** `Cancel.Error` */
  const CancelError: Result := Fail([Classified(Cancel, Unspecified)])
  /** `Skip.AccountLogout` */
  const SkipAccountLogout: Result := Fail([Classified(Skip, AccountLogout)])
  /** `Stop.NotTravianPage` */
  const StopNotTravianPage: Result := Fail([Classified(Stop, NotTravianPage)])

  /** `Result.Fail(new Retry(message))` */
  function RetryWith(message: string): Result {
    Fail([Classified(Retry, Message(message))])
  }

  /** `Result.Fail(new Skip(message))` */
  function SkipWith(message: string): Result {
    Fail([Classified(Skip, Message(message))])
  }

  /** `Retry.NotFound(subject, element)` */
  function RetryNotFound(subject: string, element: string): Result {
    Fail([Classified(Retry, NotFound(subject, element))])
  }

  /** `result.HasError<T>()` for an error value. */
  predicate HasError(r: Result, e: Error) {
    r.Fail? && e in r.errors
  }

  /** The first error of a failed result decides how the engine reacts. */
  function KindOf(r: Result): (k: Option<Kind>)
    ensures k.Some? ==> r.Fail? && |r.errors| > 0 && r.errors[0].Classified? && r.errors[0].kind == k.value
    ensures r.Ok? ==> k.None?
  {
    if r.Fail? && |r.errors| > 0 && r.errors[0].Classified? then Some(r.errors[0].kind)
    else None
  }

  /** `t` is the failure `cause` passed up with exactly one trace entry
      appended: every error of `cause` is kept, in order, and none is
      replaced. */
  predicate Extends(t: Result, cause: Result) {
    && cause.Fail? && t.Fail?
    && |t.errors| == |cause.errors| + 1
    && t.errors[..|cause.errors|] == cause.errors
    && t.errors[|cause.errors|].Trace?
  }

  /** `result.WithError(new Trace(...))` at the given source line. */
  function WithTrace(r: Result, line: nat): (t: Result)
    requires r.Fail?
    ensures Extends(t, r)
    ensures t.errors[|r.errors|] == Trace(line)
  {
    Fail(r.errors + [Trace(line)])
  }

  /** Appending a trace never reclassifies a failure. */
  lemma ExtendsKeepsKind(t: Result, cause: Result)
    requires Extends(t, cause)
    ensures KindOf(t) == KindOf(cause)
    ensures forall e :: HasError(cause, e) ==> HasError(t, e)
  {
  }

  /** The position of the first failure among the first `n` results of a
      run of steps, or `n` when all of them succeed. */
  function FirstFailure(outcomes: seq<Result>, n: nat): (k: nat)
    requires n <= |outcomes|
    ensures k <= n
    ensures forall j :: 0 <= j < k ==> outcomes[j].Ok?
    ensures k < n ==> outcomes[k].Fail?
  {
    FirstFailureFrom(outcomes, 0, n)
  }

  function FirstFailureFrom(outcomes: seq<Result>, i: nat, n: nat): (k: nat)
    requires i <= n <= |outcomes|
    requires forall j :: 0 <= j < i ==> outcomes[j].Ok?
    ensures i <= k <= n
    ensures forall j :: 0 <= j < k ==> outcomes[j].Ok?
    ensures k < n ==> outcomes[k].Fail?
    decreases n - i
  {
    if i == n then n
    else if outcomes[i].Fail? then i
    else FirstFailureFrom(outcomes, i + 1, n)
  }

  /** `t` is the failure `cause` passed up through any number of layers,
      each appending only trace entries: the errors of `cause` come first,
      unchanged, and everything after them is a trace. */
  predicate PassedUp(t: Result, cause: Result) {
    && cause.Fail? && t.Fail?
    && |t.errors| >= |cause.errors|
    && t.errors[..|cause.errors|] == cause.errors
    && forall i :: |cause.errors| <= i < |t.errors| ==> t.errors[i].Trace?
  }

  /** One more layer of tracing keeps a failure passed up. */
  lemma PassedUpExtends(u: Result, t: Result, cause: Result)
    requires PassedUp(t, cause) || t == cause
    requires cause.Fail?
    requires Extends(u, t)
    ensures PassedUp(u, cause)
  {
  }

  /** A failure passed up keeps its kind and all of its errors. */
  lemma PassedUpKeepsKind(t: Result, cause: Result)
    requires PassedUp(t, cause)
    ensures KindOf(t) == KindOf(cause)
    ensures forall e :: HasError(cause, e) ==> HasError(t, e)
  {
  }
}
