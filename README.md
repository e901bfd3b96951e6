# Completion primitive of the CQL driver, in Dafny

This project models the completion mechanism of the driver (`src/future.hpp`):

- `RefCounted<T>`, an intrusive share counter that deletes its owner when the count reaches zero;
- `Future::Error{code, message}`, an immutable failure description;
- `Future::ResultOrError`, a cell fixed at construction that holds an error or a
  (possibly null) `Result*` and hands the result out at most once;
- `Future`, which goes from pending to completed at most once and starts with two
  shares, one for the waiting thread and one for the notifying thread.

Every public member of a future is treated as one atomic step, and a run of
the model is any sequence of such steps.

The project has two layers:

- `FutureModel` (future_model.dfy) is the specification. A `State` holds the type,
  the share count, whether the future still exists, `is_set_` and the abstract
  cell. `Allowed` gives each step's precondition. `Step` gives each step's effect.
  `Handed` and `Freed` give the result a step hands to its caller and the result
  it deletes. `Run` executes any sequence of steps, and the `Run…` lemmas state
  what holds for every such sequence.
- `Outcomes`, `RefCounting` and `Futures` are the classes. A deleted result is
  marked `freed`, and `Result.Free` requires that it was not, so a double delete
  is a verification failure. Each state-changing `Future` method ensures
  `Abs() == Step(old(Abs()), op)`, which ties the classes to the specification.
  The queries (`Type`, `WaitFor`, `Ready`, `Wait`, `Get`) change nothing and
  state what they return in terms of `Abs()`.

`Futures.TakeResult` is a consumer's `future->get()->release()`, which is the
`Extract` step of the specification. `Futures.CompletionHandOff` is a client
that runs the two-party hand-off.

Two places where the code and its intended use differ:

- The model follows the intended use, not the code: a second completion call
  is forbidden. In the code, `result_or_error_.reset(...)` (src/future.hpp:152,
  161) would delete the first cell. Its destructor would delete a result nobody
  had taken. A cell returned by an earlier `get()` would be left dangling. The
  second call would then `release()` again, so a new future would drop from 2
  to 0 shares and be deleted while the waiter still holds its share. Here
  `set_error` and `set_result` require a pending future, which rules all of
  this out.
- The model follows the code: `wait()` supports many concurrent waiters. The code's count of 2 gives
  one share to the waiting side. The model allows any number of `retain` calls.

## Model

| member | source | states |
|---|---|---|
| Outcomes.Result.constructor | src/future.hpp:62-64 | a new result is live (not deleted) |
| Outcomes.Result.Free | src/future.hpp:89 | `delete result` is allowed only on a live result and leaves it deleted |
| Outcomes.ErrorCell | src/future.hpp:78-80 | the error-built cell carries exactly the given code and message and an empty result slot |
| Outcomes.ResultCell | src/future.hpp:82-84 | the result-built cell has no error and holds exactly the given (possibly null) result |
| Outcomes.TakesHandOutOnce | src/future.hpp:101-107 | over any number of `release()` calls, the first returns the stored result and every later one returns null |
| Outcomes.ResultOrError.FromError | src/future.hpp:78-80 | the constructed cell is well formed and equals the error cell for `(code, message)` |
| Outcomes.ResultOrError.FromResult | src/future.hpp:82-84 | the constructed cell has a null error and holds the given result |
| Outcomes.ResultOrError.IsError | src/future.hpp:93-95 | `is_error()` is true iff the cell carries an error, and then the result slot is null |
| Outcomes.ResultOrError.GetError | src/future.hpp:97-99 | on a cell that still exists, `error()` returns the error the cell was built with, or none for a result cell |
| Outcomes.ResultOrError.Release | src/future.hpp:101-107 | returns the slot's previous value and leaves the slot null; the error is unchanged |
| Outcomes.ResultOrError.Destroy | src/future.hpp:86-91 | the destructor deletes the result exactly when the slot still holds it, and it never deletes one twice; afterwards the cell is deleted and no member can be called on it again, including the destructor |
| RefCounting.RefCounted.constructor | src/future.hpp:38-39 | the count starts at the given value (default 1) |
| RefCounting.RefCounted.Retain | src/future.hpp:41 | the count grows by exactly one and the object stays live |
| RefCounting.RefCounted.Release | src/future.hpp:43-49 | the count drops by exactly one and stays non-negative; the object is destroyed exactly when the count reaches zero |
| FutureModel.Init | src/future.hpp:114-117 | a new future has 2 shares, is pending, has no stored outcome, has the given type and satisfies the invariant |
| FutureModel.Step | src/future.hpp:150-166 | every step keeps the type and `is_set_`; a completion sets `is_set_`; `retain` adds one share; `release` and each completion remove exactly one share, and the future then dies iff the count is 0; a stored error never changes; a completion that leaves the future alive stores exactly the error cell for its code and message, or the result cell for its result |
| FutureModel.DropCommutes | src/future.hpp:150-166 | while another party holds a share, the notifier's share drop after unlocking commutes with that party's step: both orders reach the same state and hand out and delete the same results, so merging the store and the drop loses no interleaving |
| FutureModel.StepPreservesInv | src/future.hpp:114-166 | every allowed step keeps the reachable-state invariant (a live future has a share and is set iff it stores a cell; a deleted one has none) |
| FutureModel.StepConservesResults | src/future.hpp:86-107 | one step neither duplicates nor loses a result: owned before plus supplied equals owned after plus handed out plus deleted |
| FutureModel.RunPreservesInv | src/future.hpp:114-166 | every run from a reachable state ends in a reachable state |
| FutureModel.RunMonotone | src/future.hpp:121-148 | along every run `type()` is constant, `is_set_` never goes back to false, and while the future exists the stored error never changes and the result slot keeps the same result or becomes empty |
| FutureModel.RunKeepsDeleted | src/future.hpp:46-47 | no step at all is allowed on a deleted future |
| FutureModel.RunShares | src/future.hpp:41-48 | the final share count is the initial count plus the retains, minus the releases, minus the completions |
| FutureModel.RunCompletesOnce | src/future.hpp:150-166 | at most one completion call takes effect in any run, none on a set future, and after one the future is set |
| FutureModel.RunSuppliesOnce | src/future.hpp:159-166 | any sequence of steps supplies no more results than it has completion calls |
| FutureModel.RunConservesResults | src/future.hpp:86-107 | along any run, results are conserved: owned before plus supplied equals owned after plus handed out plus deleted |
| FutureModel.OwnershipFromInit | src/future.hpp:86-166 | from construction, over any run of the model's steps, at most one result is supplied; it is handed out or deleted at most once, never both; once the future is deleted it has been handed out or deleted |
| FutureModel.ReleaseAssertHolds | src/future.hpp:43-48 | on every reachable live future the assertion in `release()` cannot fail |
| Futures.Future.constructor | src/future.hpp:114-117 | the new future's abstract state is `Init(type)` |
| Futures.Future.Type | src/future.hpp:121 | `type()` returns the constructor's argument |
| Futures.Future.WaitFor | src/future.hpp:134-140 | `wait_for(t)` returns `is_set_`, which holds iff an outcome is stored |
| Futures.Future.Ready | src/future.hpp:123-125 | `ready()` returns `is_set_` |
| Futures.Future.Wait | src/future.hpp:127-132 | `wait()` returns only on a set future, which then has a stored outcome |
| Futures.Future.Get | src/future.hpp:142-148 | `get()` returns only on a set future, and returns the stored cell itself |
| Futures.Future.Retain | src/future.hpp:41 | the future is changed exactly as `Step(Retain)` says; the stored cell is unchanged |
| Futures.Future.Release | src/future.hpp:43-48 | the future changes as `Step(Release)` says; at zero the cell is destroyed (so a cell obtained from `get()` can no longer be used) and an untaken result is deleted |
| Futures.Future.SetError | src/future.hpp:150-157 | on a pending future it stores a fresh error cell with the given code and message, sets `is_set_` and drops the notifying share, exactly as `Step(SetError)` says |
| Futures.Future.SetResult | src/future.hpp:159-166 | on a pending future it stores a fresh cell holding the given result, sets `is_set_` and drops the notifying share; if that was the last share, the result is deleted |
| Futures.TakeResult | src/future.hpp:142-148 | `get()->release()` changes the future as `Step(Extract)` says and returns exactly what `Handed` says |

## Left out

- The mutex and condition variable, real blocking and the microsecond timeout
  (src/future.hpp:128-140) are concurrency primitives. Each method is one atomic
  step instead. A completion by another thread is a separate step in a run.
- FutureModel.Step, Futures.Future.SetError and Futures.Future.SetResult: in the
  source a completion is two steps. It stores the cell and sets `is_set_` under
  the lock, then drops the notifying share after `lock.unlock()`
  (src/future.hpp:155-156, 164-165). The model merges them into one step,
  `Drop(Complete(...))`. No outcome is lost: while another party still holds a
  share, the drop commutes with that party's steps. Both orders reach the same
  state and hand out and delete the same results (`FutureModel.DropCommutes`).
  When no other share is left, nobody else can take a step.
- `retain()`, `release()`, `ResultOrError::release()` and `type()` take no lock
  in the source. They are single atomic operations or reads of constants, so
  each is still one step.
- RefCounting.RefCounted.Release: `ref_count_` is a 32-bit `std::atomic<int>`
  (src/future.hpp:52). Here it is an unbounded `int`, so overflow is not
  modelled. The `assert(new_ref_count >= 0)` at src/future.hpp:45 is a
  precondition `count >= 1`. A build without assertions would go on with a
  negative count and never delete the object; the model does not cover that.
- Futures.Future.Wait: the `while (!is_set_)` loop is not modelled as a loop.
  As one atomic step, the call is allowed only on a set future, so the loop would never run.
- Futures.Future.Get: same as `Wait`. It requires `is_set_` instead of blocking.
- Futures.Future.WaitFor: the timed sleep on a pending future is not modelled.
  The step returns `is_set_` as it stands.
- The memory ordering of `std::atomic<int>` and `std::atomic<Result*>` is left out.
  Both are plain fields updated in one step. The compare-and-swap in `release()`
  always succeeds when it runs alone.
- The polymorphic `Result` hierarchy is opaque. Its own `RefCounted<Future>` base
  is left out. Only whether a result was deleted is tracked.
- No precondition stops one result being handed to two futures, which would
  delete it twice. The ownership lemmas cover a single future.
- `CassError` is an integer. The real enumeration is in an external header.
- The default argument of `set_result` is the caller passing `null`
  (`AsOption(null) == None`).
- A second `set_error` or `set_result` is excluded by a precondition. In the
  code it would delete the first cell and any untaken result, leave an earlier
  `get()` result dangling, and drop one more share, which can delete the future
  while the waiter still holds its share.
- src/cql.cpp, the C boundary adapter, is not part of this model. Its statement
  binding functions are stubs.
