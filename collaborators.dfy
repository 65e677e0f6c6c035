/**
 * The three collaborators the throttler talks to: the clock, the storage and
 * the action. The real ones do I/O; here each one's answers are supplied by the
 * caller of the method that consults it, and each records the calls it received,
 * the way the test doubles of the Go package do.
 */
module Collaborators {
  import opened Wrappers
  import opened Errors

  /** An instant in nanoseconds since the Unix epoch. */
  type Instant = int
  /** A duration in nanoseconds. */
  type Duration = int

  /** The throttler's clock: the system clock, or a fixed instant substituted in tests. */
  datatype Clock = SystemClock | FixedClock(instant: Instant) {
    /** The reading this clock gives when the system clock reads `systemTime`. */
    function Now(systemTime: Instant): (r: Instant)
      ensures SystemClock? ==> r == systemTime
      ensures FixedClock? ==> r == instant
    {
      match this
      case SystemClock => systemTime
      case FixedClock(t) => t
    }
  }

  /** One successful execution of an action of `group`, saved at `at` and kept for `expiration`. */
  datatype Record = Record(group: string, at: Instant, expiration: Duration)

  /** The arguments of one `CountLastExecuted` call. */
  datatype Query = Query(group: string, after: Instant)

  /** A unit of work of a group; `runs` counts how often `Run` was invoked. */
  class Action {
    const groupID: string
    var runs: nat

    constructor (groupID: string)
      ensures this.groupID == groupID && runs == 0
    {
      this.groupID := groupID;
      runs := 0;
    }

    /** Runs the task once; `reply` is what the task returns (None for nil). */
    method Run(reply: Option<Error>) returns (err: Option<Error>)
      modifies this
      ensures err == reply
      ensures runs == old(runs) + 1
    {
      runs := runs + 1;
      err := reply;
    }
  }

  /**
   * The persistent store of successful executions. `log` is what the backend
   * holds; `queries` and `saves` are the calls it received, in order.
   */
  class Storage {
    var log: seq<Record>
    var queries: seq<Query>
    var saves: seq<Record>

    constructor ()
      ensures log == [] && queries == [] && saves == []
    {
      log, queries, saves := [], [], [];
    }

    /** Counts the executions of the action's group since `after`; `reply` is the backend's answer. */
    method CountLastExecuted(action: Action, after: Instant, reply: Result<int, Error>)
      returns (count: Result<int, Error>)
      modifies this
      ensures count == reply
      ensures queries == old(queries) + [Query(action.groupID, after)]
      ensures log == old(log) && saves == old(saves)
    {
      queries := queries + [Query(action.groupID, after)];
      count := reply;
    }

    /**
     * Saves one execution of the action's group at `at`, to expire after
     * `expiration`; `reply` is the backend's answer, and only a successful
     * save adds the record to the log.
     */
    method SaveSuccessfulExecution(action: Action, at: Instant, expiration: Duration, reply: Option<Error>)
      returns (err: Option<Error>)
      modifies this
      ensures err == reply
      ensures saves == old(saves) + [Record(action.groupID, at, expiration)]
      ensures log == old(log) + (if reply.None? then [Record(action.groupID, at, expiration)] else [])
      ensures queries == old(queries)
    {
      var record := Record(action.groupID, at, expiration);
      saves := saves + [record];
      if reply.None? {
        log := log + [record];
      }
      err := reply;
    }
  }
}
