/**
 * The throttler: a sliding-window limit on successful executions per group.
 * `Execute` asks the storage how many executions of the action's group happened
 * within the last `period`, rejects the action when that reaches
 * `maxAllowedActions`, and otherwise runs it and records a successful run.
 */
module Throttling {
  import opened Wrappers
  import opened Errors
  import opened Collaborators

  /** The context strings of the two errors `Execute` wraps. */
  const QueryContext := "error querying the storage"
  const SaveContext := "error while storing successful execution"

  /** How one `Execute` call ends: the five terminal states. */
  datatype Outcome =
    | QueryErr(cause: Error)   // the count query failed; nothing ran
    | TooMany                  // the limit is reached; nothing ran
    | ActionErr(cause: Error)  // the action ran and failed; nothing saved
    | SaveErr(cause: Error)    // the action ran, saving it failed
    | Ok                       // the action ran and was saved
  {
    /** The action's `Run` was invoked. */
    predicate ActionRan() { ActionErr? || SaveErr? || Ok? }

    /** `SaveSuccessfulExecution` was invoked. */
    predicate SaveAttempted() { SaveErr? || Ok? }

    /** The outcome carries an error of a collaborator. */
    predicate HasCause() { QueryErr? || ActionErr? || SaveErr? }
  }

  /**
   * The decision `Execute` takes, given the storage's answer to the count
   * query, the action's result and the storage's answer to the save. A result
   * is only consulted once the call that produces it is made.
   */
  function Decide(maxAllowedActions: int, count: Result<int, Error>, run: Option<Error>, save: Option<Error>)
    : (o: Outcome)
    ensures o.QueryErr? <==> count.Failure?
    ensures o.QueryErr? ==> o.cause == count.error
    ensures o.TooMany? <==> count.Success? && count.value >= maxAllowedActions
    ensures o.ActionRan() <==> count.Success? && count.value < maxAllowedActions
    ensures o.ActionErr? <==> o.ActionRan() && run.Some?
    ensures o.ActionErr? ==> o.cause == run.value
    ensures o.SaveAttempted() <==> o.ActionRan() && run.None?
    ensures o.SaveErr? <==> o.SaveAttempted() && save.Some?
    ensures o.SaveErr? ==> o.cause == save.value
    ensures o.Ok? <==> count.Success? && count.value < maxAllowedActions && run.None? && save.None?
  {
    match count
    case Failure(e) => QueryErr(e)
    case Success(n) =>
      if n >= maxAllowedActions then TooMany
      else if run.Some? then ActionErr(run.value)
      else if save.Some? then SaveErr(save.value)
      else Ok
  }

  /**
   * True when an action's own error could be mistaken for one the throttler
   * produces: it is the sentinel, or it carries one of the throttler's contexts.
   */
  predicate MimicsThrottler(e: Error)
  {
    e == TooManyActionsExecuted || (e.Wrapped? && (e.context == QueryContext || e.context == SaveContext))
  }

  /** What a caller can tell from the error `Execute` returned. */
  function Classify(err: Option<Error>): Outcome
  {
    match err
    case None => Ok
    case Some(e) =>
      if e == TooManyActionsExecuted then TooMany
      else if e.Wrapped? && e.context == QueryContext then QueryErr(e.inner)
      else if e.Wrapped? && e.context == SaveContext then SaveErr(e.inner)
      else ActionErr(e)
  }

  /**
   * The error value `Execute` returns for an outcome: nil on success, the
   * wrapped storage error, the sentinel, or the action's error unchanged.
   */
  function Returned(o: Outcome): (err: Option<Error>)
    ensures err.None? <==> o.Ok?
    ensures o.ActionErr? ==> err == Some(o.cause)
    ensures o.QueryErr? ==> err.value.Wrapped? && err.value.inner == o.cause
    ensures o.SaveErr? ==> err.value.Wrapped? && err.value.inner == o.cause
    ensures err.Some? ==>
              (Is(err.value, TooManyActionsExecuted) <==> o.TooMany? || (o.HasCause() && Is(o.cause, TooManyActionsExecuted)))
    ensures !(o.ActionErr? && MimicsThrottler(o.cause)) ==> Classify(err) == o
  {
    match o
    case QueryErr(e) => Some(Wrapped(QueryContext, e))
    case TooMany => Some(TooManyActionsExecuted)
    case ActionErr(e) => Some(e)
    case SaveErr(e) => Some(Wrapped(SaveContext, e))
    case Ok => None
  }

  /** An action whose own error is the sentinel returns exactly what a rejection returns. */
  lemma ActionErrorCanMimicRejection()
    ensures ActionErr(TooManyActionsExecuted) != TooMany
    ensures Returned(ActionErr(TooManyActionsExecuted)) == Returned(TooMany)
  {
  }

  /** The records one call adds to the storage's log: one, for a successful run saved successfully. */
  function Recorded(o: Outcome, group: string, at: Instant, period: Duration): (rs: seq<Record>)
    ensures |rs| <= 1
    ensures |rs| == 1 <==> o.Ok?
    ensures forall r :: r in rs ==> r.group == group && r.at == at && r.expiration == period
  {
    if o.Ok? then [Record(group, at, period)] else []
  }

  class Throttler {
    var clock: Clock
    var maxAllowedActions: int
    var period: Duration
    var storage: Storage

    /** A throttler on the system clock with the given limit, window and storage. */
    constructor New(maxAllowedActions: int, period: Duration, storage: Storage)
      ensures clock == SystemClock
      ensures this.maxAllowedActions == maxAllowedActions && this.period == period
      ensures this.storage == storage
    {
      clock := SystemClock;
      this.maxAllowedActions := maxAllowedActions;
      this.period := period;
      this.storage := storage;
    }

    /**
     * Runs `action` unless its group already has `maxAllowedActions`
     * executions within the last `period`. The clock is read twice: once for
     * the start of the window (`systemNow1`) and once for the saved record
     * (`systemNow2`). `countReply`, `runReply` and `saveReply` are what the
     * storage and the action answer when called.
     */
    method Execute(action: Action, systemNow1: Instant, systemNow2: Instant,
                   countReply: Result<int, Error>, runReply: Option<Error>, saveReply: Option<Error>)
      returns (err: Option<Error>)
      modifies storage, action
      ensures var o := Decide(maxAllowedActions, countReply, runReply, saveReply);
        && err == Returned(o)
        && storage.queries == old(storage.queries) + [Query(action.groupID, clock.Now(systemNow1) - period)]
        && action.runs == old(action.runs) + (if o.ActionRan() then 1 else 0)
        && storage.saves == old(storage.saves)
             + (if o.SaveAttempted() then [Record(action.groupID, clock.Now(systemNow2), period)] else [])
        && storage.log == old(storage.log) + Recorded(o, action.groupID, clock.Now(systemNow2), period)
      ensures clock == old(clock) && maxAllowedActions == old(maxAllowedActions)
      ensures period == old(period) && storage == old(storage)
    {
      var count := storage.CountLastExecuted(action, clock.Now(systemNow1) - period, countReply);
      if count.Failure? {
        return Some(Wrapped(QueryContext, count.error));
      }

      if count.value >= maxAllowedActions {
        return Some(TooManyActionsExecuted);
      }

      var runErr := action.Run(runReply);
      if runErr.Some? {
        return runErr;
      }

      var saveErr := storage.SaveSuccessfulExecution(action, clock.Now(systemNow2), period, saveReply);
      if saveErr.Some? {
        return Some(Wrapped(SaveContext, saveErr.value));
      }

      return None;
    }
  }
}
