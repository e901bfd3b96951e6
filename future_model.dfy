/**
  The `Future` of the driver as a sequential state machine. Each public
  member of a future, called from any thread, is treated as one atomic
  step, and a run is any sequence of such steps. Every interleaving of the
  waiting and the notifying threads is equivalent to a run, because the
  share drop that a completion makes after unlocking commutes with the
  other party's steps (`DropCommutes`).
*/
module FutureModel {
  import opened Wrappers
  import opened Outcomes

  datatype FutureType = Session | Request

  /**
    The abstract state of one future: its type, the share count of its
    `RefCounted` base, whether it still exists, `is_set_`, and the stored
    `ResultOrError` (none before completion, and none once deleted).
  */
  datatype State = State(kind: FutureType, shares: int, live: bool, isSet: bool, cell: Option<Cell>)

  /** The steps that change a future. `Extract` is a consumer's `get()->release()`. */
  datatype Op =
    | Retain
    | Release
    | SetError(code: CassError, message: string)
    | SetResult(result: Option<Result>)
    | Extract

  /** `Future(type)`: one share for the waiting and one for the notifying thread. */
  function Init(kind: FutureType): (s: State)
    ensures Inv(s) && s.kind == kind && s.shares == 2 && s.live && !s.isSet && s.cell == None
  {
    State(kind, 2, true, false, None)
  }

  /** The invariant of every future reachable from `Init`. */
  ghost predicate Inv(s: State) {
    && (s.live ==> s.shares >= 1 && (s.isSet <==> s.cell.Some?))
    && (!s.live ==> s.shares == 0 && s.cell.None?)
    && (s.cell.Some? ==> WellFormed(s.cell.value))
  }

  /** The steps that give up a share. */
  predicate DropsShare(op: Op) {
    op.Release? || op.SetError? || op.SetResult?
  }

  /**
    What a caller must ensure before each step: the future still exists,
    a share is given up only while the count is positive (the assertion in
    `release()`), it is completed at most once, and its result is taken only
    after completion (`get()` blocks until then).
  */
  predicate Allowed(s: State, op: Op) {
    match op
    case Retain => s.live
    case Release => s.live && s.shares >= 1
    case SetError(_, _) => s.live && !s.isSet && s.shares >= 1
    case SetResult(_) => s.live && !s.isSet && s.shares >= 1
    case Extract => s.live && s.isSet && s.cell.Some?
  }

  /** `release()` on the future: at zero the future is deleted together with its cell. */
  function Drop(s: State): State
    requires s.shares >= 1
  {
    if s.shares == 1 then s.(shares := 0, live := false, cell := None)
    else s.(shares := s.shares - 1)
  }

  /** The result deleted by `Drop(s)`: the one still in the slot when the cell is destroyed. */
  function DropFrees(s: State): Option<Result> {
    if s.shares == 1 && s.cell.Some? then s.cell.value.slot else None
  }

  /** The state that completing `s` with `c` stores before the notifying share is dropped. */
  function Complete(s: State, c: Cell): State {
    s.(isSet := true, cell := Some(c))
  }

  function Step(s: State, op: Op): (r: State)
    requires Allowed(s, op)
    ensures r.kind == s.kind
    ensures s.isSet ==> r.isSet
    ensures (op.SetError? || op.SetResult?) ==> r.isSet
    ensures op.Retain? ==> r.shares == s.shares + 1 && r.live
    ensures DropsShare(op) ==> r.shares == s.shares - 1 && (r.live <==> r.shares != 0)
    ensures op.Extract? ==> r.shares == s.shares && r.live
    ensures r.live && s.isSet && s.cell.Some? ==> r.cell.Some? && r.cell.value.error == s.cell.value.error
    ensures r.live && s.isSet && s.cell.Some? ==> r.cell.value.slot in {s.cell.value.slot, None}
    ensures op.SetError? && r.live ==> r.cell == Some(ErrorCell(op.code, op.message))
    ensures op.SetResult? && r.live ==> r.cell == Some(ResultCell(op.result))
  {
    match op
    case Retain => s.(shares := s.shares + 1)
    case Release => Drop(s)
    case SetError(code, message) => Drop(Complete(s, ErrorCell(code, message)))
    case SetResult(result) => Drop(Complete(s, ResultCell(result)))
    case Extract => s.(cell := Some(Take(s.cell.value).0))
  }

  /**
    In the source a completion stores its cell under the lock and drops the
    notifying share only after unlocking. While another party still holds a
    share, that drop commutes with any step the other party takes: both
    orders reach the same state and hand out and delete the same results,
    so treating the store and the drop as one step loses no interleaving.
  */
  lemma DropCommutes(s: State, op: Op)
    requires s.shares >= 2 && Allowed(s, op) && !op.SetError? && !op.SetResult?
    ensures Allowed(Drop(s), op) && Step(s, op).shares >= 1
    ensures Drop(Step(s, op)) == Step(Drop(s), op)
    ensures AsMultiset(Handed(s, op)) + AsMultiset(Freed(s, op)) + AsMultiset(DropFrees(Step(s, op)))
         == AsMultiset(DropFrees(s)) + AsMultiset(Handed(Drop(s), op)) + AsMultiset(Freed(Drop(s), op))
  {
  }

  /** The result a step hands to its caller. */
  function Handed(s: State, op: Op): Option<Result>
    requires Allowed(s, op)
  {
    if op.Extract? then Take(s.cell.value).1 else None
  }

  /** The result a step deletes. */
  function Freed(s: State, op: Op): Option<Result>
    requires Allowed(s, op)
  {
    match op
    case Release => DropFrees(s)
    case SetError(code, message) => DropFrees(Complete(s, ErrorCell(code, message)))
    case SetResult(result) => DropFrees(Complete(s, ResultCell(result)))
    case _ => None
  }

  /** The results a future's cell holds and still owns. */
  function Owned(s: State): multiset<Result> {
    if s.cell.Some? then AsMultiset(s.cell.value.slot) else multiset{}
  }

  lemma StepPreservesInv(s: State, op: Op)
    requires Inv(s) && Allowed(s, op)
    ensures Inv(Step(s, op))
  {
  }

  /**
    Ownership of results is conserved by one step: what the cell owned, plus
    what the step supplied, is what it owns afterwards plus what was handed
    out plus what was deleted.
  */
  lemma StepConservesResults(s: State, op: Op)
    requires Inv(s) && Allowed(s, op)
    ensures Owned(s) + SuppliedBy(op)
         == Owned(Step(s, op)) + AsMultiset(Handed(s, op)) + AsMultiset(Freed(s, op))
  {
    // Each case is spelled out; without them the solver runs out of resource on some seeds.
    var e: multiset<Result> := multiset{};
    match op
    case Retain =>
      assert Owned(Step(s, op)) == Owned(s);
      assert Handed(s, op) == None && Freed(s, op) == None && SuppliedBy(op) == e;
    case Release =>
      assert Handed(s, op) == None && SuppliedBy(op) == e;
      if s.shares == 1 {
        assert Owned(Step(s, op)) == e;
        assert AsMultiset(Freed(s, op)) == Owned(s);
      } else {
        assert Owned(Step(s, op)) == Owned(s);
        assert Freed(s, op) == None;
      }
    case SetError(code, message) =>
      assert Owned(s) == e && SuppliedBy(op) == e;
      assert Owned(Step(s, op)) == e;
      assert Handed(s, op) == None && Freed(s, op) == None;
    case SetResult(result) =>
      assert Owned(s) == e && SuppliedBy(op) == AsMultiset(result);
      assert Handed(s, op) == None;
      if s.shares == 1 {
        assert Owned(Step(s, op)) == e;
        assert Freed(s, op) == result;
      } else {
        assert Owned(Step(s, op)) == AsMultiset(result);
        assert Freed(s, op) == None;
      }
    case Extract =>
      assert Owned(Step(s, op)) == e;
      assert AsMultiset(Handed(s, op)) == Owned(s);
      assert Freed(s, op) == None && SuppliedBy(op) == e;
  }

  /** The result of a run: its final state and what it handed out and deleted. */
  datatype Trace = Trace(final: State, handed: multiset<Result>, freed: multiset<Result>)

  /** Runs `ops` from `s`; none when some step is not allowed where it is taken. */
  function Run(s: State, ops: seq<Op>): Option<Trace>
    decreases |ops|
  {
    if ops == [] then Some(Trace(s, multiset{}, multiset{}))
    else if !Allowed(s, ops[0]) then None
    else
      match Run(Step(s, ops[0]), ops[1..])
      case None => None
      case Some(t) =>
        Some(Trace(t.final,
                   AsMultiset(Handed(s, ops[0])) + t.handed,
                   AsMultiset(Freed(s, ops[0])) + t.freed))
  }

  function Retains(ops: seq<Op>): nat {
    if ops == [] then 0 else (if ops[0].Retain? then 1 else 0) + Retains(ops[1..])
  }

  function Releases(ops: seq<Op>): nat {
    if ops == [] then 0 else (if ops[0].Release? then 1 else 0) + Releases(ops[1..])
  }

  function Completions(ops: seq<Op>): nat {
    if ops == [] then 0
    else (if ops[0].SetError? || ops[0].SetResult? then 1 else 0) + Completions(ops[1..])
  }

  /** The result handed to the future by one step: only `set_result` supplies one. */
  function SuppliedBy(op: Op): multiset<Result> {
    if op.SetResult? then AsMultiset(op.result) else multiset{}
  }

  /** The results handed to the future by the `set_result` calls of a run. */
  function Supplied(ops: seq<Op>): multiset<Result> {
    if ops == [] then multiset{} else SuppliedBy(ops[0]) + Supplied(ops[1..])
  }

  /** Every run from a reachable state ends in a reachable state. */
  lemma {:induction false} RunPreservesInv(s: State, ops: seq<Op>)
    requires Inv(s) && Run(s, ops).Some?
    ensures Inv(Run(s, ops).value.final)
    decreases |ops|
  {
    if ops != [] {
      StepPreservesInv(s, ops[0]);
      RunPreservesInv(Step(s, ops[0]), ops[1..]);
    }
  }

  /**
    `type()` never changes, and completion is monotonic: once set, a future
    stays set, and while it exists its stored error stays the same and its
    result slot either keeps the same result or has been emptied.
  */
  lemma {:induction false} RunMonotone(s: State, ops: seq<Op>)
    requires Run(s, ops).Some?
    ensures Run(s, ops).value.final.kind == s.kind
    ensures s.isSet ==> Run(s, ops).value.final.isSet
    ensures s.isSet && s.cell.Some? && Run(s, ops).value.final.live ==>
              Run(s, ops).value.final.cell.Some? &&
              Run(s, ops).value.final.cell.value.error == s.cell.value.error
    ensures s.isSet && s.cell.Some? && Run(s, ops).value.final.live ==>
              Run(s, ops).value.final.cell.Some? &&
              Run(s, ops).value.final.cell.value.slot in {s.cell.value.slot, None}
    decreases |ops|
  {
    if ops != [] {
      var s' := Step(s, ops[0]);
      RunMonotone(s', ops[1..]);
      if !s'.live {
        RunKeepsDeleted(s', ops[1..]);
      }
    }
  }

  /** Nothing can be done to a deleted future. */
  lemma RunKeepsDeleted(s: State, ops: seq<Op>)
    requires Run(s, ops).Some? && !s.live
    ensures ops == [] && Run(s, ops).value.final == s
  {
  }

  /** Each completion gives up exactly one share, as each `release()` does. */
  lemma {:induction false} RunShares(s: State, ops: seq<Op>)
    requires Run(s, ops).Some?
    ensures Run(s, ops).value.final.shares
         == s.shares + Retains(ops) - Releases(ops) - Completions(ops)
    decreases |ops|
  {
    if ops != [] {
      RunShares(Step(s, ops[0]), ops[1..]);
    }
  }

  /** At most one completion call takes effect, and none once the future is set. */
  lemma {:induction false} RunCompletesOnce(s: State, ops: seq<Op>)
    requires Run(s, ops).Some?
    ensures Completions(ops) <= (if s.isSet then 0 else 1)
    ensures Completions(ops) == 1 ==> Run(s, ops).value.final.isSet
    decreases |ops|
  {
    if ops != [] {
      var s' := Step(s, ops[0]);
      RunCompletesOnce(s', ops[1..]);
      RunMonotone(s', ops[1..]);
    }
  }

  /**
    Only completion calls supply results, at most one each; a fact about the
    steps alone, whatever state they run from.
  */
  lemma {:induction false} RunSuppliesOnce(ops: seq<Op>)
    ensures |Supplied(ops)| <= Completions(ops)
    decreases |ops|
  {
    if ops != [] {
      RunSuppliesOnce(ops[1..]);
    }
  }

  /** The first step of a run and the run of the remaining steps. */
  lemma RunUnfold(s: State, ops: seq<Op>)
    requires ops != [] && Run(s, ops).Some?
    ensures Allowed(s, ops[0]) && Run(Step(s, ops[0]), ops[1..]).Some?
    ensures var t, t' := Run(s, ops).value, Run(Step(s, ops[0]), ops[1..]).value;
            && t.final == t'.final
            && t.handed == AsMultiset(Handed(s, ops[0])) + t'.handed
            && t.freed == AsMultiset(Freed(s, ops[0])) + t'.freed
  {
  }

  /** Ownership of results is conserved along a run. */
  lemma {:induction false} RunConservesResults(s: State, ops: seq<Op>)
    requires Inv(s) && Run(s, ops).Some?
    ensures var t := Run(s, ops).value;
            Owned(s) + Supplied(ops) == Owned(t.final) + t.handed + t.freed
    decreases |ops|
  {
    if ops != [] {
      var op, rest := ops[0], ops[1..];
      RunUnfold(s, ops);
      var s' := Step(s, op);
      StepConservesResults(s, op);
      StepPreservesInv(s, op);
      RunConservesResults(s', rest);
      var t, t' := Run(s, ops).value, Run(s', rest).value;
      SumsShift(Owned(s), SuppliedBy(op), Supplied(rest), Owned(s'),
                AsMultiset(Handed(s, op)), AsMultiset(Freed(s, op)),
                Owned(t'.final), t'.handed, t'.freed);
    }
  }

  /** The multiset arithmetic of one step of `RunConservesResults`. */
  lemma SumsShift<T>(o: multiset<T>, sup: multiset<T>, rest: multiset<T>, o': multiset<T>,
                     h: multiset<T>, f: multiset<T>, o'': multiset<T>, h': multiset<T>, f': multiset<T>)
    requires o + sup == o' + h + f
    requires o' + rest == o'' + h' + f'
    ensures o + (sup + rest) == o'' + (h + h') + (f + f')
  {
    forall x ensures (o + (sup + rest))[x] == (o'' + (h + h') + (f + f'))[x] {
      assert (o + sup)[x] == (o' + h + f)[x];
      assert (o' + rest)[x] == (o'' + h' + f')[x];
    }
  }

  /**
    For a future from its constructor, over every run of steps: at most one
    result is supplied; it is handed out at most once, deleted at most once,
    never both; and once the future is deleted, a supplied result has been
    either handed out or deleted, exactly once.
  */
  lemma OwnershipFromInit(kind: FutureType, ops: seq<Op>)
    requires Run(Init(kind), ops).Some?
    ensures var t := Run(Init(kind), ops).value;
            && |Supplied(ops)| <= 1
            && |t.handed + t.freed| <= 1
            && t.handed + t.freed <= Supplied(ops)
            && (!t.final.live ==> t.handed + t.freed == Supplied(ops))
  {
    var t := Run(Init(kind), ops).value;
    RunCompletesOnce(Init(kind), ops);
    RunSuppliesOnce(ops);
    RunConservesResults(Init(kind), ops);
    RunPreservesInv(Init(kind), ops);
    assert Owned(Init(kind)) == multiset{};
    assert Supplied(ops) == Owned(t.final) + t.handed + t.freed;
  }

  /** On a reachable future `release()`'s assertion never fails: a live future has a share. */
  lemma {:induction false} ReleaseAssertHolds(kind: FutureType, ops: seq<Op>)
    requires Run(Init(kind), ops).Some? && Run(Init(kind), ops).value.final.live
    ensures Allowed(Run(Init(kind), ops).value.final, Release)
  {
    RunPreservesInv(Init(kind), ops);
  }
}
