/**
 * The scenarios of the package's tests (throttler_test.go), each as a client
 * of `Throttler.Execute` that sets up fresh collaborators and states what the
 * call returns and which calls it makes. Scenarios on the system clock hold
 * for every pair of clock readings.
 */
module Scenarios {
  import opened Wrappers
  import opened Errors
  import opened Collaborators
  import opened Throttling

  /** 2019-01-01T12:34:56Z, in nanoseconds since the Unix epoch. */
  const TestTime: Instant := 1_546_346_096_000_000_000
  /** 2019-01-01T12:29:56Z, the start of a five-minute window ending at TestTime. */
  const SinceTime: Instant := 1_546_345_796_000_000_000
  const Minute: Duration := 60_000_000_000
  const FiveMinutes: Duration := 5 * Minute

  /** The text the count-error test expects. */
  lemma QueryErrorText()
    ensures Message(Wrapped(QueryContext, Plain("something went wrong")))
         == "error querying the storage: something went wrong"
  {
    assert Message(Wrapped(QueryContext, Plain("something went wrong")))
        == QueryContext + ": " + "something went wrong";
  }

  /** The text the save-error test expects. */
  lemma SaveErrorText()
    ensures Message(Wrapped(SaveContext, Plain("something went wrong")))
         == "error while storing successful execution: something went wrong"
  {
    assert Message(Wrapped(SaveContext, Plain("something went wrong")))
        == SaveContext + ": " + "something went wrong";
  }

  /** The count query fails: the storage error comes back wrapped, and nothing runs or is saved. */
  method StorageCountError(systemNow1: Instant, systemNow2: Instant)
    returns (err: Option<Error>, runs: nat, saves: seq<Record>)
    ensures err == Some(Wrapped(QueryContext, Plain("something went wrong")))
    ensures runs == 0 && saves == []
  {
    var storage := new Storage();
    var action := new Action("group");
    var t := new Throttler.New(5, Minute, storage);
    err := t.Execute(action, systemNow1, systemNow2, Failure(Plain("something went wrong")), None, None);
    runs, saves := action.runs, storage.saves;
  }

  /** The action runs but saving fails: the save error comes back wrapped, after exactly one run. */
  method StorageSaveError(systemNow1: Instant, systemNow2: Instant)
    returns (err: Option<Error>, runs: nat, saves: seq<Record>, log: seq<Record>)
    ensures err == Some(Wrapped(SaveContext, Plain("something went wrong")))
    ensures runs == 1 && |saves| == 1 && log == []
  {
    var storage := new Storage();
    var action := new Action("group");
    var t := new Throttler.New(1, Minute, storage);
    err := t.Execute(action, systemNow1, systemNow2, Success(0), None, Some(Plain("something went wrong")));
    runs, saves, log := action.runs, storage.saves, storage.log;
  }

  /** One execution stored and a limit of one: the call is rejected with the sentinel and nothing runs. */
  method LimitReached() returns (err: Option<Error>, runs: nat, saves: seq<Record>)
    ensures err == Some(TooManyActionsExecuted)
    ensures Message(err.value) == "too many actions executed"
    ensures runs == 0 && saves == []
  {
    var storage := new Storage();
    var action := new Action("group");
    var t := new Throttler.New(1, Minute, storage);
    t.clock := FixedClock(TestTime);
    err := t.Execute(action, 0, 0, Success(1), None, None);
    runs, saves := action.runs, storage.saves;
  }

  /**
   * No execution stored and a limit of one: the window starts five minutes
   * before the clock, the action runs once and one record is saved at the
   * clock's instant with the period as expiration.
   */
  method UnderLimit() returns (err: Option<Error>, runs: nat, queries: seq<Query>, saves: seq<Record>, log: seq<Record>)
    ensures err == None
    ensures runs == 1
    ensures queries == [Query("group", SinceTime)]
    ensures saves == [Record("group", TestTime, FiveMinutes)] && log == saves
  {
    var storage := new Storage();
    var action := new Action("group");
    var t := new Throttler.New(1, FiveMinutes, storage);
    t.clock := FixedClock(TestTime);
    err := t.Execute(action, 0, 0, Success(0), None, None);
    runs, queries, saves, log := action.runs, storage.queries, storage.saves, storage.log;
  }

  /** The action fails: its error comes back unchanged and nothing is saved. */
  method ActionRunError(systemNow1: Instant, systemNow2: Instant)
    returns (err: Option<Error>, runs: nat, saves: seq<Record>)
    ensures err == Some(Plain("some error"))
    ensures Message(err.value) == "some error"
    ensures runs == 1 && saves == []
  {
    var storage := new Storage();
    var action := new Action("group");
    var t := new Throttler.New(1, FiveMinutes, storage);
    err := t.Execute(action, systemNow1, systemNow2, Success(0), Some(Plain("some error")), None);
    runs, saves := action.runs, storage.saves;
  }
}
