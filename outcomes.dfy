/**
  The outcome of a completed operation: an `Error{code, message}` or a
  `Result`, held by a `ResultOrError` cell that is fixed at construction and
  hands its result out at most once.
*/
module Outcomes {
  import opened Wrappers

  /** The driver's error code; the enumeration itself lives in an external header. */
  type CassError = int

  /** An immutable failure description. */
  datatype Error = Error(code: CassError, message: string)

  /**
    The payload of a successful operation. Its contents are opaque here; the
    only state kept is whether the object has been deleted, so that a second
    `delete` is a verification failure.
  */
  class Result {
    var freed: bool

    constructor ()
      ensures !freed
    {
      freed := false;
    }

    /** `delete result`: allowed only on a live object. */
    method Free()
      requires !freed
      modifies this
      ensures freed
    {
      freed := true;
    }
  }

  /** A nullable `Result*` as an optional value. */
  function AsOption(r: Result?): (o: Option<Result>)
    ensures o.None? <==> r == null
    ensures o.Some? ==> o.value == r
  {
    if r == null then None else Some(r)
  }

  /**
    The abstract contents of a `ResultOrError`: the error, if the cell was
    built from one, and the result slot, which is empty when the cell was
    built from an error or a null result, or once the result was handed out.
  */
  datatype Cell = Cell(error: Option<Error>, slot: Option<Result>)

  /** Exactly one of the two constructors was used, and an error cell never holds a result. */
  predicate WellFormed(c: Cell) {
    c.error.Some? ==> c.slot.None?
  }

  /** The cell built by `ResultOrError(code, message)`. */
  function ErrorCell(code: CassError, message: string): (c: Cell)
    ensures WellFormed(c) && c.error == Some(Error(code, message)) && c.slot == None
  {
    Cell(Some(Error(code, message)), None)
  }

  /** The cell built by `ResultOrError(result)`. */
  function ResultCell(result: Option<Result>): (c: Cell)
    ensures WellFormed(c) && c.error == None && c.slot == result
  {
    Cell(None, result)
  }

  /** One `release()`: the cell afterwards and what the call returns. */
  function Take(c: Cell): (Cell, Option<Result>) {
    (c.(slot := None), c.slot)
  }

  /** What `n` successive `release()` calls on `c` return, in order. */
  function Takes(c: Cell, n: nat): (rs: seq<Option<Result>>)
    decreases n
  {
    if n == 0 then [] else [Take(c).1] + Takes(Take(c).0, n - 1)
  }

  /**
    Over any number of `release()` calls, the first returns the stored
    result and every later one returns nothing.
  */
  lemma {:induction false} TakesHandOutOnce(c: Cell, n: nat)
    ensures |Takes(c, n)| == n
    ensures n > 0 ==> Takes(c, n)[0] == c.slot
    ensures forall i :: 1 <= i < n ==> Takes(c, n)[i] == None
    decreases n
  {
    if n > 0 {
      var c' := Take(c).0;
      TakesHandOutOnce(c', n - 1);
      assert c'.slot == None;
      forall i | 1 <= i < n ensures Takes(c, n)[i] == None {
        assert Takes(c, n)[i] == Takes(c', n - 1)[i - 1];
        if i > 1 {
          assert Takes(c', n - 1)[i - 1] == None;
        }
      }
    }
  }

  /**
    `ResultOrError`: the error is fixed at construction (`const`); the result
    slot only ever moves to null. `deleted` records that the destructor has
    run, after which no member may be used.
  */
  class ResultOrError {
    var result: Result?
    const error: Option<Error>
    var deleted: bool

    ghost function Abs(): Cell
      reads this
    {
      Cell(error, AsOption(result))
    }

    /** The cell is not yet deleted, is well formed, and a result it still owns is not yet deleted. */
    ghost predicate Valid()
      reads this, result
    {
      !deleted && WellFormed(Abs()) && (result != null ==> !result.freed)
    }

    constructor FromError(code: CassError, message: string)
      ensures Valid() && Abs() == ErrorCell(code, message)
    {
      result := null;
      error := Some(Error(code, message));
      deleted := false;
    }

    constructor FromResult(r: Result?)
      requires r != null ==> !r.freed
      ensures Valid() && Abs() == ResultCell(AsOption(r))
    {
      result := r;
      error := None;
      deleted := false;
    }

    /** `is_error()`: true exactly for a cell built from `(code, message)`. */
    method IsError() returns (b: bool)
      requires Valid()
      ensures b <==> Abs().error.Some?
      ensures b ==> Abs().slot.None?
    {
      b := error.Some?;
    }

    /** `error()`: the error the cell was built with, or null for a result cell. */
    method GetError() returns (e: Option<Error>)
      requires Valid()
      ensures e == Abs().error
    {
      e := error;
    }

    /**
      `release()`: the compare-and-swap to null always succeeds when it runs
      as one step, so the call returns what the slot held and empties it.
    */
    method Release() returns (r: Result?)
      requires Valid()
      modifies this
      ensures Valid()
      ensures (Abs(), AsOption(r)) == Take(old(Abs()))
      ensures r == old(result) && result == null
    {
      r := result;
      result := null;
    }

    /**
      `~ResultOrError()`: deletes the result exactly when it was never handed
      out; afterwards the cell itself is gone.
    */
    method Destroy()
      requires Valid()
      modifies this, result
      ensures deleted && !Valid()
      ensures result == null
      ensures old(result) != null ==> old(result).freed
    {
      var r := Release();
      if r != null {
        r.Free();
      }
      deleted := true;
    }
  }
}
