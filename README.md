# Throttler model

A Dafny model of the core of the Go package `throttler`, which limits how often an action may run. An action belongs to a group. `Throttler.Execute` asks a pluggable storage how many successful executions of that group happened within the trailing `period`. It rejects the call with the sentinel `ErrToManyActionsExecuted` when that count has reached `maxAllowedActions`. Otherwise it runs the action and, after a successful run, saves one record `(group, now, period)`.

Files:

- `wrappers.dfy` (module `Wrappers`): `Option` and `Result`, standing for Go's nil-able errors and `(T, error)` pairs.
- `errors.dfy` (module `Errors`): Go `error` values as the throttler uses them. The sentinel is a constructor of its own, `fmt.Errorf("…: %w", e)` is `Wrapped(context, e)`, and `Message` and `Is` stand for `err.Error()` and `errors.Is`.
- `collaborators.dfy` (module `Collaborators`): the clock, the action and the storage. The clock is the system clock or a fixed instant. `Action` and `Storage` are classes that return whatever answer they are handed as a method argument. They record the calls they receive: `runs`, `queries` and `saves`. The storage's `log` holds the records that were saved successfully.
- `throttling.dfy` (module `Throttling`): the `Throttler` class with its constructor `New` and its method `Execute`. It also holds the functions that specify `Execute`:
  - `Decide` gives the outcome among the five terminal states.
  - `Returned` gives the error value the caller receives.
  - `Recorded` gives what is appended to the storage.
  - `Classify` is what a caller can tell back from the returned error.
- `window.dfy` (module `Window`): the throttler against a storage that counts exactly and never fails. `Burst` describes the log after a run of calls at one instant, and `BurstBounded` proves that such a run saves at most `maxAllowedActions` executions beyond a starting count below the limit. `ExecuteBurst` calls `Throttler.Execute` in a loop and proves that the log it leaves is `Burst`'s, so the bound holds of `Execute` itself.
- `scenarios.dfy` (module `Scenarios`): the five scenarios of `throttler_test.go`, written as verified clients of `Execute`.

`Execute` reads the clock twice: once for the start of the window (throttler.go:41) and once for the saved record (throttler.go:54). It takes both system-clock readings as parameters. With a fixed clock both readings give the fixed instant.

The action's own error is returned unchanged (throttler.go:50-51). So if an action fails with the sentinel itself, or with an error that carries one of the throttler's wrapping contexts, the caller cannot tell that failure from a rejection or a storage error. `ActionErrorCanMimicRejection` exhibits the case. `Returned`'s round trip through `Classify` holds for every other outcome.

## Model

| member | source | states |
|---|---|---|
| `Errors.Message` | throttler.go:43 | A wrapped error's text starts with its context and ends with the inner error's text, as `%w` formatting gives. |
| `Collaborators.Clock.Now` | clock.go:7-16 | The system clock gives the supplied wall-clock reading; a fixed clock, the test double of throttler_test.go:19-25, gives its fixed instant whatever the wall clock reads. |
| `Collaborators.Action.Run` | action.go:9 | Running an action returns the task's result and raises the action's run count by exactly one. |
| `Collaborators.Storage.CountLastExecuted` | storage.go:11 | The count query returns the backend's answer, records the group and the `after` bound it was asked about, and changes no stored record. |
| `Collaborators.Storage.SaveSuccessfulExecution` | storage.go:14 | A save records one call for the action's group, at `at`, with the given expiration. Only a successful save adds that record to the stored log. |
| `Throttling.Decide` | throttler.go:41-59 | Each of the five outcomes happens exactly when its conditions hold. A query error happens iff the count query fails, and it carries that error. Rejection happens iff the count is at or above the limit. The action runs iff the count is below the limit. An action error carries the action's own error. A save is attempted iff the run succeeded, and a save error carries the storage's error. Success happens iff the query succeeded, the count was below the limit, the run succeeded and the save succeeded. |
| `Throttling.Returned` | throttler.go:11-59 | The returned error is nil iff the outcome is success. An action error is returned unwrapped. Query and save errors wrap the storage's error. `errors.Is(err, ErrToManyActionsExecuted)` holds iff the call was rejected, or a collaborator's own error carried the sentinel. `Classify` recovers the outcome unless an action error mimics a throttler error. |
| `Throttling.ActionErrorCanMimicRejection` | throttler.go:46-51 | An action failing with the sentinel is a different outcome from a rejection, yet it returns the identical error value. |
| `Throttling.Recorded` | throttler.go:54 | A call appends at most one record to the storage. It appends one exactly when the outcome is success, and that record has the action's group, the second clock reading and `expiration == period`. |
| `Throttling.Throttler.New` | throttler.go:27-36 | The constructor stores `maxAllowedActions`, `period` and `storage` as given and installs the system clock. |
| `Throttling.Throttler.Execute` | throttler.go:40-60 | It returns `Returned(Decide(...))`. It queries exactly once, with `after` equal to the first clock reading minus `period`. It invokes `Run` once if the count was below the limit and never otherwise. It calls Save once, with the second clock reading and `period`, exactly when `Run` succeeded. The stored log grows by `Recorded(...)`. The throttler's clock, limit, period and storage are unchanged. |
| `Window.CountSince` | storage.go:10-11 | The exact count of a group's executions since an instant never exceeds the number of stored records. |
| `Window.CountAppend` | storage.go:10-14 | Saving a record raises a group's count by one exactly when the record is of that group and inside the window. Other groups' counts are unchanged. |
| `Window.BurstBounded` | throttler.go:41-57 | Take repeated calls at one instant with `period >= 0` and an exact, reliable storage. They only append to the log, every record they append is counted, and the count never rises above the larger of the starting count and `maxAllowedActions`. |
| `Window.ExecuteExactly` | throttler.go:40-60 | One `Execute` call at a single instant, against a storage that answers the count exactly from its log and saves successfully, leaves the log `ExactExecute` describes. |
| `Window.ExecuteBurst` | throttler.go:40-60 | Calling `Execute` repeatedly at one instant, against a storage that counts exactly from its log and saves successfully, leaves exactly the log `Burst` describes. The window count then stays at most the larger of the starting count and `maxAllowedActions`. |
| `Window.FreshStorageBound` | throttler.go:46-54 | Starting from an empty storage, calls at one instant save at most `maxAllowedActions` executions. |
| `Scenarios.QueryErrorText` | throttler_test.go:65 | The wrapped query error reads "error querying the storage: something went wrong". |
| `Scenarios.SaveErrorText` | throttler_test.go:85 | The wrapped save error reads "error while storing successful execution: something went wrong". |
| `Scenarios.StorageCountError` | throttler_test.go:55-66 | A failing count query returns the storage error wrapped with the query context. The action never runs and nothing is saved. |
| `Scenarios.StorageSaveError` | throttler_test.go:68-88 | A failing save after a successful run returns the storage error wrapped with the save context. The action ran once, Save was called once, and nothing was stored. |
| `Scenarios.LimitReached` | throttler_test.go:90-111 | One stored execution with a limit of one gives the sentinel, and the action never runs. The test is named `NotExceedingLimit`, but this is its rejection case. |
| `Scenarios.UnderLimit` | throttler_test.go:113-136 | With a clock fixed at 2019-01-01T12:34:56Z and a 5-minute period, the query's `after` is 12:29:56Z. The action runs once and one record is saved at 12:34:56Z with a 5-minute expiration. |
| `Scenarios.ActionRunError` | throttler_test.go:138-157 | A failing action's error "some error" is returned unchanged, and nothing is saved. |

## Left out

- The Redis storage (storage/redis/storage.go) is not part of this model. The storage is the abstract interface of storage.go, and its answers are parameters. Its count ignores `after`, and its key pattern can also match groups whose IDs extend the given one with `-`.
- `context.Context` is not modelled. Cancellation only reaches the storage calls.
- Concurrency is out of scope. That includes the check-then-act race between concurrent callers of `Execute`: two callers may both see a count under the limit and both run. `Window.BurstBounded` is about sequential calls only.
- `clock.go`'s `time.Now()` is replaced by integer readings passed to `Execute`. `time.Time` and `time.Duration` are unbounded integers in nanoseconds, so 64-bit overflow of `Add(-period)` is not modelled, and neither are monotonic clock readings.
- `Collaborators.Storage.SaveSuccessfulExecution`: the Go interface does not say what a failed save leaves behind. The model assumes it stores nothing.
- `Collaborators.Action` has its group ID as a constant, because `GroupID()` is a pure query.
- Errors built with `errors.New` are compared by their text (`Plain(text)`), not by pointer identity. Only the sentinel has an identity of its own.
- `New` does not validate its arguments, and neither does the model. The window bound (`Window.BurstBounded`) needs `period >= 0`. With a negative period and an exact storage, the records this throttler saves fall outside its own window, so they never count toward the limit.
- The testify mock machinery is replaced by the recorded calls of `Action` and `Storage`.
