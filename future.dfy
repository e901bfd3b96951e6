/**
  The `Future` class: a `RefCounted` share count, `is_set_` and the stored
  `ResultOrError`. Each method is treated as one atomic step of
  `FutureModel`; the lock and condition variable are not modelled.
*/
module Futures {
  import opened Wrappers
  import opened Outcomes
  import opened RefCounting
  import opened FutureModel

  class Future {
    const kind: FutureType
    /** The `RefCounted<Future>` base. */
    const refs: RefCounted
    var isSet: bool
    var resultOrError: ResultOrError?

    ghost function Abs(): State
      reads this, refs, resultOrError
    {
      State(kind, refs.count, refs.live, isSet,
            if resultOrError == null then None else Some(resultOrError.Abs()))
    }

    /** The objects the future owns: itself, its count, its cell and the cell's result. */
    ghost function Repr(): set<object>
      reads this, resultOrError
    {
      {this, refs} +
      (if resultOrError == null then {}
       else {resultOrError} + (if resultOrError.result == null then {} else {resultOrError.result}))
    }

    ghost predicate Valid()
      reads this, refs, resultOrError, Repr()
    {
      Inv(Abs()) && (resultOrError != null ==> resultOrError.Valid())
    }

    constructor (kind: FutureType)
      ensures Valid() && Abs() == Init(kind) && fresh(refs)
    {
      this.kind := kind;
      refs := new RefCounted(2);
      isSet := false;
      resultOrError := null;
    }

    /** `type()`: the type given to the constructor. */
    method Type() returns (k: FutureType)
      requires Valid() && refs.live
      ensures k == Abs().kind
    {
      k := kind;
    }

    /**
      `wait_for(timeout)`: when pending, the source sleeps up to `timeout`
      microseconds; a completion by another thread is a separate step
      before this one, so the step itself reports `is_set_`.
    */
    method WaitFor(timeout: nat) returns (b: bool)
      requires Valid() && refs.live
      ensures b <==> Abs().isSet
      ensures b <==> Abs().cell.Some?
    {
      b := isSet;
    }

    /** `ready()`: `wait_for(0)`. */
    method Ready() returns (b: bool)
      requires Valid() && refs.live
      ensures b <==> Abs().isSet
    {
      b := WaitFor(0);
    }

    /** `wait()` blocks until the future is set; as one step it may run only then. */
    method Wait()
      requires Valid() && refs.live && isSet
      ensures Abs().isSet && Abs().cell.Some?
    {
    }

    /** `get()`: once set, the stored cell, the same object on every call. */
    method Get() returns (c: ResultOrError)
      requires Valid() && refs.live && isSet
      ensures c == resultOrError && c.Valid()
      ensures Abs().cell == Some(c.Abs())
    {
      c := resultOrError;
    }

    method Retain()
      requires Valid() && Allowed(Abs(), Op.Retain)
      modifies refs
      ensures Valid() && Abs() == Step(old(Abs()), Op.Retain)
      ensures resultOrError == old(resultOrError)
    {
      refs.Retain();
    }

    /**
      `release()`: drops one share; at zero the future is deleted, which
      destroys its cell and with it a result nobody took.
    */
    method Release()
      requires Valid() && Allowed(Abs(), Op.Release)
      modifies Repr()
      ensures Valid() && Abs() == Step(old(Abs()), Op.Release)
      ensures refs.live ==> resultOrError == old(resultOrError)
      ensures !refs.live && old(resultOrError) != null ==> old(resultOrError).deleted
      ensures var f := Freed(old(Abs()), Op.Release); f.Some? ==> f.value.freed
    {
      var destroyed := refs.Release();
      if destroyed {
        if resultOrError != null {
          resultOrError.Destroy();
          resultOrError := null;
        }
      }
    }

    /** `set_error(code, message)` on a pending future. */
    method SetError(code: CassError, message: string)
      requires Valid() && Allowed(Abs(), Op.SetError(code, message))
      modifies this, refs
      ensures Valid() && Abs() == Step(old(Abs()), Op.SetError(code, message))
      ensures refs.live ==> fresh(resultOrError)
    {
      resultOrError := new ResultOrError.FromError(code, message);
      isSet := true;
      Release();
    }

    /** `set_result(result)` on a pending future; `result` may be null. */
    method SetResult(result: Result?)
      requires Valid() && Allowed(Abs(), Op.SetResult(AsOption(result)))
      requires result != null ==> !result.freed
      modifies this, refs, result
      ensures Valid() && Abs() == Step(old(Abs()), Op.SetResult(AsOption(result)))
      ensures refs.live ==> fresh(resultOrError) && resultOrError.result == result
      ensures var f := Freed(old(Abs()), Op.SetResult(AsOption(result))); f.Some? ==> f.value.freed
    {
      resultOrError := new ResultOrError.FromResult(result);
      isSet := true;
      Release();
    }
  }

  /**
    A consumer's `future->get()->release()`: takes ownership of the result,
    which only the first such call receives.
  */
  method TakeResult(f: Future) returns (r: Result?)
    requires f.Valid() && Allowed(f.Abs(), Extract)
    modifies f.resultOrError
    ensures f.Valid() && f.Abs() == Step(old(f.Abs()), Extract)
    ensures AsOption(r) == Handed(old(f.Abs()), Extract)
  {
    var c := f.Get();
    r := c.Release();
  }

  /**
    The two-party hand-off: the network thread completes the future with
    a result, the waiting thread takes it, and each gives up its share.
    The result reaches the waiter exactly once and is not deleted.
  */
  method CompletionHandOff(kind: FutureType, result: Result)
    requires !result.freed
    modifies result
  {
    var f := new Future(kind);
    var ready := f.Ready();
    assert !ready;
    f.SetResult(result);
    ready := f.Ready();
    assert ready;
    var first := TakeResult(f);
    var second := TakeResult(f);
    assert first == result && second == null;
    f.Release();
    assert !f.refs.live && !result.freed;
  }
}
