/**
  The counter application's two programs, as pure functions of the calling
  transaction and the application's global state.

  The approval program is a first-match-wins selection: creation (detected by
  an application id of 0) comes first, then one branch per on-completion kind.
  A selection in which no branch matches ends in `err`, that is, in a
  rejection. The platform commits the writes of an approved call and none of
  the writes of a rejected one, so every rejecting outcome below carries the
  state as it was before the call.
 */
module Counter {
  import opened Teal

  /** The on-completion kinds of an application call, in the platform's
      numbering order (0 to 5). */
  datatype OnComplete =
    | NoOp
    | OptIn
    | CloseOut
    | ClearState
    | UpdateApplication
    | DeleteApplication

  /** What the approval program reads of a call: the application id (0 while
      the application is being created), the on-completion kind, the size of
      the atomic group the call belongs to, and the call's arguments. */
  datatype Txn = Txn(
    applicationId: Uint64,
    onCompletion: OnComplete,
    groupSize: nat,
    applicationArgs: seq<Bytes>)

  /** The verdict of one call, with the global state the platform keeps
      afterwards: the program's writes when approved, the old state when
      rejected. */
  datatype Outcome = Outcome(approved: bool, globals: Globals)

  /** The one global key the contract uses. */
  const COUNT_KEY: Bytes := Ascii("Count")
  /** The two arguments the no-op handler recognises. */
  const INCREMENT: Bytes := Ascii("Increment")
  const DECREMENT: Bytes := Ascii("Decrement")

  /** The two recognised arguments are different byte strings (they differ
      in their first byte), so at most one routing branch can match. */
  lemma ArgumentsDiffer()
    ensures INCREMENT != DECREMENT
  {
    assert INCREMENT[0] != DECREMENT[0];
  }

  /** The counter as the contract reads it. */
  function Count(g: Globals): Uint64 {
    GlobalGet(g, COUNT_KEY)
  }

  /** `g'` differs from `g` at most in the value bound to "Count". */
  ghost predicate OnlyCountWritten(g: Globals, g': Globals) {
    forall k :: k != COUNT_KEY ==> (k in g' <==> k in g) && (k in g ==> g'[k] == g[k])
  }

  function Approved(g: Globals): Outcome {
    Outcome(true, g)
  }

  /** A rejected call: whatever the program wrote, the old state stays. */
  function Rejected(g: Globals): Outcome {
    Outcome(false, g)
  }

  /** Creation: store 0 under "Count", then approve. */
  function HandleCreation(g: Globals): (r: Outcome)
    ensures r.approved
    ensures Count(r.globals) == 0 && COUNT_KEY in r.globals
    ensures OnlyCountWritten(g, r.globals)
  {
    Approved(GlobalPut(g, COUNT_KEY, 0))
  }

  /** Increment: read "Count" into a scratch slot, store the slot plus one.
      The TEAL addition fails, and the call is rejected, when the counter
      already holds 2^64 - 1. */
  function Increment(g: Globals): (r: Outcome)
    ensures r.approved <==> Count(g) < UINT64_MODULUS - 1
    ensures r.approved ==> Count(r.globals) == Count(g) + 1 && COUNT_KEY in r.globals
    ensures !r.approved ==> r.globals == g
    ensures OnlyCountWritten(g, r.globals)
  {
    var scratchCount := Count(g);
    match Add(scratchCount, 1)
    case Ok(v) => Approved(GlobalPut(g, COUNT_KEY, v))
    case Fail => Rejected(g)
  }

  /** Decrement: read "Count" into a scratch slot; store the slot minus one
      only when the slot is positive; approve in both cases. */
  function Decrement(g: Globals): (r: Outcome)
    ensures r.approved
    ensures Count(g) > 0 ==> Count(r.globals) == Count(g) - 1
    ensures Count(g) == 0 ==> r.globals == g
    ensures COUNT_KEY in g ==> COUNT_KEY in r.globals
    ensures OnlyCountWritten(g, r.globals)
  {
    var scratchCount := Count(g);
    if scratchCount > 0 then
      match Sub(scratchCount, 1)
      case Ok(v) => Approved(GlobalPut(g, COUNT_KEY, v))
      case Fail => Rejected(g)
    else
      Approved(g)
  }

  /** `txna ApplicationArgs 0`: fails when the call has no arguments. */
  function FirstArg(txn: Txn): (a: Eval<Bytes>)
    ensures a.Ok? <==> |txn.applicationArgs| > 0
    ensures a.Ok? ==> a.value == txn.applicationArgs[0]
  {
    if |txn.applicationArgs| > 0 then Ok(txn.applicationArgs[0]) else Fail
  }

  /** The no-op handler: assert that the call is not grouped with others,
      then route on the first argument; an argument that is neither
      "Increment" nor "Decrement" matches no branch and rejects. */
  function HandleNoOp(txn: Txn, g: Globals): (r: Outcome)
    ensures txn.groupSize != 1 ==> r == Rejected(g)
    ensures txn.applicationArgs == [] ==> r == Rejected(g)
    ensures txn.groupSize == 1 && |txn.applicationArgs| > 0 && txn.applicationArgs[0] == INCREMENT ==>
      (r.approved <==> Count(g) < UINT64_MODULUS - 1) &&
      (r.approved ==> Count(r.globals) == Count(g) + 1 && COUNT_KEY in r.globals)
    ensures txn.groupSize == 1 && |txn.applicationArgs| > 0 && txn.applicationArgs[0] == DECREMENT ==>
      r.approved && Count(r.globals) == (if Count(g) > 0 then Count(g) - 1 else 0) &&
      (Count(g) == 0 ==> r.globals == g)
    ensures (|txn.applicationArgs| > 0 && txn.applicationArgs[0] != INCREMENT &&
             txn.applicationArgs[0] != DECREMENT) ==> r == Rejected(g)
    ensures !r.approved ==> r.globals == g
    ensures OnlyCountWritten(g, r.globals)
    ensures COUNT_KEY in g ==> COUNT_KEY in r.globals
  {
    ArgumentsDiffer();
    if txn.groupSize != 1 then
      Rejected(g)
    else
      match FirstArg(txn)
      case Fail => Rejected(g)
      case Ok(arg) =>
        if arg == INCREMENT then Increment(g)
        else if arg == DECREMENT then Decrement(g)
        else Rejected(g)
  }

  /** The decision table of the approval program, written independently of
      its branch structure: which calls are approved, given the counter. */
  predicate Accepts(txn: Txn, count: Uint64) {
    || txn.applicationId == 0
    || (&& txn.onCompletion == NoOp
        && txn.groupSize == 1
        && |txn.applicationArgs| > 0
        && (|| (txn.applicationArgs[0] == INCREMENT && count < UINT64_MODULUS - 1)
            || txn.applicationArgs[0] == DECREMENT))
  }

  /** The approval program: the first branch whose condition holds runs;
      when none holds the program fails. */
  function ApprovalProgram(txn: Txn, g: Globals): (r: Outcome)
    ensures r.approved <==> Accepts(txn, Count(g))
    ensures !r.approved ==> r.globals == g
    ensures OnlyCountWritten(g, r.globals)
    ensures COUNT_KEY in g ==> COUNT_KEY in r.globals
    ensures txn.applicationId == 0 ==> Count(r.globals) == 0 && COUNT_KEY in r.globals
    ensures txn.applicationId != 0 && txn.onCompletion != NoOp ==> r == Rejected(g)
    ensures txn.applicationId != 0 && r.approved ==>
      Count(r.globals) ==
        if txn.applicationArgs[0] == INCREMENT then Count(g) + 1
        else if Count(g) > 0 then Count(g) - 1
        else 0
    ensures (txn.applicationId != 0 && r.approved && Count(g) == 0 &&
             txn.applicationArgs[0] == DECREMENT) ==> r.globals == g
  {
    ArgumentsDiffer();
    if txn.applicationId == 0 then HandleCreation(g)
    else if txn.onCompletion == OptIn then Rejected(g)
    else if txn.onCompletion == CloseOut then Rejected(g)
    else if txn.onCompletion == UpdateApplication then Rejected(g)
    else if txn.onCompletion == DeleteApplication then Rejected(g)
    else if txn.onCompletion == NoOp then HandleNoOp(txn, g)
    else Rejected(g)
  }

  /** The clear-state program approves every call and writes nothing. */
  function ClearStateProgram(txn: Txn, g: Globals): (r: Outcome)
    ensures r.approved && r.globals == g
  {
    Approved(g)
  }
}
