/**
 * The throttler against a storage that counts exactly and never fails: how
 * many executions a run of calls at one instant can record.
 */
module Window {
  import opened Wrappers
  import opened Errors
  import opened Collaborators
  import opened Throttling

  /** The number of records of `group` in `log` saved at or after `after`. */
  function CountSince(log: seq<Record>, group: string, after: Instant): (n: nat)
    ensures n <= |log|
  {
    if log == [] then 0
    else
      var last := log[|log| - 1];
      CountSince(log[..|log| - 1], group, after) + (if last.group == group && last.at >= after then 1 else 0)
  }

  /** Appending a record raises the count by one exactly when the record is of the group and in the window. */
  lemma CountAppend(log: seq<Record>, r: Record, group: string, after: Instant)
    ensures CountSince(log + [r], group, after)
         == CountSince(log, group, after) + (if r.group == group && r.at >= after then 1 else 0)
  {
    assert (log + [r])[..|log|] == log;
  }

  /** The log after one `Execute` at `now` on both clock readings, with an exact and reliable storage. */
  function ExactExecute(maxAllowedActions: int, period: Duration, group: string, now: Instant,
                        log: seq<Record>, run: Option<Error>): seq<Record>
  {
    var o := Decide(maxAllowedActions, Success(CountSince(log, group, now - period)), run, None);
    log + Recorded(o, group, now, period)
  }

  /** The log after one such call per entry of `runs`, all at the instant `now`. */
  function Burst(maxAllowedActions: int, period: Duration, group: string, now: Instant,
                 log: seq<Record>, runs: seq<Option<Error>>): seq<Record>
    decreases |runs|
  {
    if runs == [] then log
    else Burst(maxAllowedActions, period, group, now,
               ExactExecute(maxAllowedActions, period, group, now, log, runs[0]), runs[1..])
  }

  /**
   * Calls at one instant only append to the log, every record they append is
   * counted in the window, and the count never passes the larger of the
   * starting count and `maxAllowedActions`.
   */
  lemma {:induction false} BurstBounded(maxAllowedActions: int, period: Duration, group: string, now: Instant,
                                        log: seq<Record>, runs: seq<Option<Error>>)
    requires period >= 0
    ensures var b := Burst(maxAllowedActions, period, group, now, log, runs);
            var c0 := CountSince(log, group, now - period);
            && |log| <= |b| && b[..|log|] == log
            && |b| - |log| == CountSince(b, group, now - period) - c0
            && CountSince(b, group, now - period) <= (if c0 < maxAllowedActions then maxAllowedActions else c0)
    decreases |runs|
  {
    if runs != [] {
      var after := now - period;
      var o := Decide(maxAllowedActions, Success(CountSince(log, group, after)), runs[0], None);
      var next := ExactExecute(maxAllowedActions, period, group, now, log, runs[0]);
      assert next == log + Recorded(o, group, now, period);
      if o.Ok? {
        CountAppend(log, Record(group, now, period), group, after);
      } else {
        assert next == log;
      }
      BurstBounded(maxAllowedActions, period, group, now, next, runs[1..]);
      var b := Burst(maxAllowedActions, period, group, now, next, runs[1..]);
      assert b[..|next|][..|log|] == b[..|log|];
    }
  }

  /** From an empty log, calls at one instant record at most `maxAllowedActions` executions. */
  lemma FreshStorageBound(maxAllowedActions: int, period: Duration, group: string, now: Instant,
                          runs: seq<Option<Error>>)
    requires period >= 0
    ensures |Burst(maxAllowedActions, period, group, now, [], runs)| <= if maxAllowedActions < 0 then 0 else maxAllowedActions
  {
    BurstBounded(maxAllowedActions, period, group, now, [], runs);
  }

  /** One more call at the front of a run: the log `Burst` continues from. */
  lemma BurstStep(maxAllowedActions: int, period: Duration, group: string, now: Instant,
                  log: seq<Record>, runs: seq<Option<Error>>, i: nat)
    requires i < |runs|
    ensures Burst(maxAllowedActions, period, group, now, log, runs[i..])
         == Burst(maxAllowedActions, period, group, now,
                  ExactExecute(maxAllowedActions, period, group, now, log, runs[i]), runs[i + 1..])
  {
    assert runs[i..][0] == runs[i] && runs[i..][1..] == runs[i + 1..];
  }

  /** One `t.Execute` at `now` against a storage that counts exactly from its log and saves successfully. */
  method ExecuteExactly(t: Throttler, action: Action, now: Instant, run: Option<Error>)
    requires t.clock.Now(now) == now
    modifies t.storage, action
    ensures t.storage.log == ExactExecute(t.maxAllowedActions, t.period, action.groupID, now, old(t.storage.log), run)
  {
    ghost var before := t.storage.log;
    var count := CountSince(t.storage.log, action.groupID, now - t.period);
    ghost var next := ExactExecute(t.maxAllowedActions, t.period, action.groupID, now, before, run);
    assert next == before + Recorded(Decide(t.maxAllowedActions, Success(count), run, None), action.groupID, now, t.period);
    var _ := t.Execute(action, now, now, Success(count), run, None);
  }

  /**
   * Calls `t.Execute` once per entry of `runs`, with both clock readings at
   * `now` and with the storage answering every count query exactly from its
   * log and every save successfully. The log ends as `Burst` describes, so the
   * bounds of `BurstBounded` hold of the log `Execute` itself leaves behind.
   */
  method ExecuteBurst(t: Throttler, action: Action, now: Instant, runs: seq<Option<Error>>)
    requires t.clock.Now(now) == now
    requires t.period >= 0
    modifies t.storage, action
    ensures t.storage.log == Burst(t.maxAllowedActions, t.period, action.groupID, now, old(t.storage.log), runs)
    ensures var c0 := CountSince(old(t.storage.log), action.groupID, now - t.period);
            CountSince(t.storage.log, action.groupID, now - t.period)
              <= (if c0 < t.maxAllowedActions then t.maxAllowedActions else c0)
  {
    var storage, max, period, group := t.storage, t.maxAllowedActions, t.period, action.groupID;
    ghost var final := Burst(max, period, group, now, storage.log, runs);
    ghost var c0 := CountSince(storage.log, group, now - period);
    BurstBounded(max, period, group, now, storage.log, runs);
    assert CountSince(final, group, now - period) <= (if c0 < max then max else c0);
    var i := 0;
    while i < |runs|
      invariant 0 <= i <= |runs|
      invariant Burst(max, period, group, now, storage.log, runs[i..]) == final
    {
      ghost var before := storage.log;
      ExecuteExactly(t, action, now, runs[i]);
      BurstStep(max, period, group, now, before, runs, i);
      i := i + 1;
    }
    assert runs[i..] == [];
    assert storage.log == final;
    assert CountSince(storage.log, group, now - period) <= (if c0 < max then max else c0);
    assert t.storage == storage && t.maxAllowedActions == max && t.period == period;
  }
}
