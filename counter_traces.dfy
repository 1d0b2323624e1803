/**
  Sequences of calls to the approval program. Each call sees the state the
  previous ones committed; a rejected call commits nothing. The lemmas here
  are the properties of the counter that speak of more than one call.
 */
module CounterTraces {
  import opened Teal
  import opened Counter

  /** Runs the calls in order from `g`: `approved` says whether every call
      was approved, `globals` is the state after the last one. */
  function Run(g: Globals, txns: seq<Txn>): Outcome
    decreases |txns|
  {
    if txns == [] then Outcome(true, g)
    else
      var first := ApprovalProgram(txns[0], g);
      var rest := Run(first.globals, txns[1..]);
      Outcome(first.approved && rest.approved, rest.globals)
  }

  /** `k` copies of the same call. */
  function Repeat(txn: Txn, k: nat): (r: seq<Txn>)
    ensures |r| == k
  {
    if k == 0 then [] else [txn] + Repeat(txn, k - 1)
  }

  /** A single, ungrouped no-op call of an existing application with one
      argument. */
  function NoOpCall(appId: Uint64, arg: Bytes): Txn {
    Txn(appId, NoOp, 1, [arg])
  }

  /** A creating call, with whatever on-completion kind. */
  function CreateCall(onCompletion: OnComplete): Txn {
    Txn(0, onCompletion, 1, [])
  }

  /** Running two batches one after the other is running their
      concatenation. */
  lemma {:induction false} RunAppend(g: Globals, a: seq<Txn>, b: seq<Txn>)
    ensures Run(g, a + b) ==
      Outcome(Run(g, a).approved && Run(Run(g, a).globals, b).approved,
              Run(Run(g, a).globals, b).globals)
    decreases |a|
  {
    if a == [] {
      assert a + b == b;
    } else {
      assert (a + b)[0] == a[0];
      assert (a + b)[1..] == a[1..] + b;
      RunAppend(ApprovalProgram(a[0], g).globals, a[1..], b);
    }
  }

  /** Over any sequence of calls, "Count" is the only global key ever
      written. */
  lemma {:induction false} RunWritesOnlyCount(g: Globals, txns: seq<Txn>)
    ensures OnlyCountWritten(g, Run(g, txns).globals)
    decreases |txns|
  {
    if txns != [] {
      var g1 := ApprovalProgram(txns[0], g).globals;
      RunWritesOnlyCount(g1, txns[1..]);
    }
  }

  /** Once "Count" exists it is never removed: the contract has no delete,
      and it rejects its own deletion. */
  lemma {:induction false} CountKeyPersists(g: Globals, txns: seq<Txn>)
    requires COUNT_KEY in g
    ensures COUNT_KEY in Run(g, txns).globals
    decreases |txns|
  {
    if txns != [] {
      CountKeyPersists(ApprovalProgram(txns[0], g).globals, txns[1..]);
    }
  }

  /** `k` increments below the 64-bit limit are all approved and add `k`. */
  lemma {:induction false} RepeatedIncrement(g: Globals, appId: Uint64, k: nat)
    requires appId != 0
    requires Count(g) + k < UINT64_MODULUS
    ensures Run(g, Repeat(NoOpCall(appId, INCREMENT), k)).approved
    ensures Count(Run(g, Repeat(NoOpCall(appId, INCREMENT), k)).globals) == Count(g) + k
    decreases k
  {
    if k > 0 {
      var inc := NoOpCall(appId, INCREMENT);
      assert Repeat(inc, k)[0] == inc && Repeat(inc, k)[1..] == Repeat(inc, k - 1);
      RepeatedIncrement(ApprovalProgram(inc, g).globals, appId, k - 1);
    }
  }

  /** `k` decrements are all approved and bring the counter down to
      `Count(g) - k`, never below 0. */
  lemma {:induction false} RepeatedDecrement(g: Globals, appId: Uint64, k: nat)
    requires appId != 0
    ensures Run(g, Repeat(NoOpCall(appId, DECREMENT), k)).approved
    ensures Count(Run(g, Repeat(NoOpCall(appId, DECREMENT), k)).globals) ==
      if Count(g) >= k then Count(g) - k else 0
    decreases k
  {
    if k > 0 {
      var dec := NoOpCall(appId, DECREMENT);
      ArgumentsDiffer();
      assert Repeat(dec, k)[0] == dec && Repeat(dec, k)[1..] == Repeat(dec, k - 1);
      RepeatedDecrement(ApprovalProgram(dec, g).globals, appId, k - 1);
    }
  }

  /** At 0, decrements change nothing at all: the state stays exactly as
      it was. */
  lemma {:induction false} DecrementAtZeroIsFixed(g: Globals, appId: Uint64, k: nat)
    requires appId != 0
    requires Count(g) == 0
    ensures Run(g, Repeat(NoOpCall(appId, DECREMENT), k)) == Outcome(true, g)
    decreases k
  {
    if k > 0 {
      var dec := NoOpCall(appId, DECREMENT);
      ArgumentsDiffer();
      assert Repeat(dec, k)[0] == dec && Repeat(dec, k)[1..] == Repeat(dec, k - 1);
      DecrementAtZeroIsFixed(g, appId, k - 1);
    }
  }

  /** Whatever the prior state and the on-completion kind of the creating
      call: create, increment three times, decrement five times. Every call
      is approved and the counter ends at 0. */
  lemma CreateIncrementThreeDecrementFive(g: Globals, appId: Uint64, onCompletion: OnComplete)
    requires appId != 0
    ensures
      var calls := [CreateCall(onCompletion)] + Repeat(NoOpCall(appId, INCREMENT), 3)
                   + Repeat(NoOpCall(appId, DECREMENT), 5);
      Run(g, calls).approved && Count(Run(g, calls).globals) == 0
  {
    var create := [CreateCall(onCompletion)];
    var incs := Repeat(NoOpCall(appId, INCREMENT), 3);
    var decs := Repeat(NoOpCall(appId, DECREMENT), 5);
    var g1 := ApprovalProgram(create[0], g).globals;
    assert Run(g, create) == Outcome(true, g1);
    RunAppend(g, create, incs);
    RepeatedIncrement(g1, appId, 3);
    RunAppend(g, create + incs, decs);
    RepeatedDecrement(Run(g, create + incs).globals, appId, 5);
  }
}
