/**
  The approval program as the platform runs it against a live application:
  an object whose global state is read and rewritten in place by each call.
  The handlers are the step-by-step read-modify-write sequences of the
  contract (read "Count" into a scratch slot, compute, store), and each is
  proved to leave exactly the state that the pure programs in `Counter`
  describe.
 */
module CounterApp {
  import opened Teal
  import opened Counter

  class Application {
    /** The application's global key-value store. */
    var globals: Globals

    /** Before its creating call an application has no global state. */
    constructor ()
      ensures globals == map[]
    {
      globals := map[];
    }

    /** The counter as the contract would read it now. */
    function CurrentCount(): Uint64
      reads this
    {
      Count(globals)
    }

    /** Creation: store 0 under "Count" and approve. */
    method HandleCreation() returns (approved: bool)
      modifies this
      ensures approved
      ensures globals == old(globals)[COUNT_KEY := 0]
      ensures Outcome(approved, globals) == Counter.HandleCreation(old(globals))
    {
      globals := GlobalPut(globals, COUNT_KEY, 0);
      approved := true;
    }

    /** Increment: load "Count" into the scratch slot, store the slot plus
        one. When the addition overflows the program fails before its store,
        and the state is left as it was. */
    method Increment() returns (approved: bool)
      modifies this
      ensures approved <==> old(CurrentCount()) < UINT64_MODULUS - 1
      ensures globals == if approved then old(globals)[COUNT_KEY := old(CurrentCount()) + 1] else old(globals)
      ensures Outcome(approved, globals) == Counter.Increment(old(globals))
    {
      var scratchCount := GlobalGet(globals, COUNT_KEY);
      var sum := Add(scratchCount, 1);
      if sum.Fail? {
        return false;
      }
      globals := GlobalPut(globals, COUNT_KEY, sum.value);
      approved := true;
    }

    /** Decrement: load "Count" into the scratch slot and store the slot
        minus one only when the slot is positive; approve either way. */
    method Decrement() returns (approved: bool)
      modifies this
      ensures approved
      ensures globals == if old(CurrentCount()) > 0 then old(globals)[COUNT_KEY := old(CurrentCount()) - 1] else old(globals)
      ensures Outcome(approved, globals) == Counter.Decrement(old(globals))
    {
      var scratchCount := GlobalGet(globals, COUNT_KEY);
      if scratchCount > 0 {
        var difference := Sub(scratchCount, 1);
        if difference.Fail? {
          return false;
        }
        globals := GlobalPut(globals, COUNT_KEY, difference.value);
      }
      approved := true;
    }

    /** The no-op handler: reject a grouped call, then route on the first
        argument; reading a missing argument or an unknown one rejects. */
    method HandleNoOp(txn: Txn) returns (approved: bool)
      modifies this
      ensures !approved ==> globals == old(globals)
      ensures Outcome(approved, globals) == Counter.HandleNoOp(txn, old(globals))
    {
      if txn.groupSize != 1 {
        return false;
      }
      var arg := FirstArg(txn);
      if arg.Fail? {
        return false;
      }
      if arg.value == INCREMENT {
        approved := Increment();
      } else if arg.value == DECREMENT {
        approved := Decrement();
      } else {
        approved := false;
      }
    }

    /** One call of the approval program: creation first, then the
        on-completion branches in order; no matching branch rejects. */
    method Call(txn: Txn) returns (approved: bool)
      modifies this
      ensures approved <==> Accepts(txn, old(CurrentCount()))
      ensures !approved ==> globals == old(globals)
      ensures Outcome(approved, globals) == ApprovalProgram(txn, old(globals))
    {
      if txn.applicationId == 0 {
        approved := HandleCreation();
      } else if txn.onCompletion == OptIn {
        approved := false;
      } else if txn.onCompletion == CloseOut {
        approved := false;
      } else if txn.onCompletion == UpdateApplication {
        approved := false;
      } else if txn.onCompletion == DeleteApplication {
        approved := false;
      } else if txn.onCompletion == NoOp {
        approved := HandleNoOp(txn);
      } else {
        approved := false;
      }
    }
  }

  /** A client of `Application`, the imperative counterpart of the trace
      lemma `CounterTraces.CreateIncrementThreeDecrementFive`: on a live
      object, create the application, increment three times, decrement five
      times. Every call is approved, and the counter ends at 0: the last two
      decrements find it at 0 and leave it there. */
  method CreateIncrementThreeDecrementFive(appId: Uint64) returns (allApproved: bool, count: Uint64)
    requires appId != 0
    ensures allApproved && count == 0
  {
    var app := new Application();
    var create := Txn(0, NoOp, 1, []);
    var inc := Txn(appId, NoOp, 1, [INCREMENT]);
    var dec := Txn(appId, NoOp, 1, [DECREMENT]);
    ArgumentsDiffer();
    var ok1 := app.Call(create);
    var ok2 := app.Call(inc);
    var ok3 := app.Call(inc);
    var ok4 := app.Call(inc);
    assert app.CurrentCount() == 3;
    var ok5 := app.Call(dec);
    var ok6 := app.Call(dec);
    var ok7 := app.Call(dec);
    var ok8 := app.Call(dec);
    var ok9 := app.Call(dec);
    allApproved := ok1 && ok2 && ok3 && ok4 && ok5 && ok6 && ok7 && ok8 && ok9;
    count := app.CurrentCount();
  }
}
